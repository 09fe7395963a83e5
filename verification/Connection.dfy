/** The pool, `withTransaction`, `withQuery`, `dbQuery` and `insertBlock` as the program writes them, on
    mutable clients (src/postgres/client.ts, src/postgres/block.ts, src/postgres/chain.ts). Statements are
    written in the order in which the shared connection executes them: UPDATE is sent with the insert of the
    block row and so precedes the other inserts. The transaction is proved to be an interleaving of
    CommitProtocol. */
module Connection {
  import opened Prelude
  import opened RawData
  import opened Database
  import opened BlockSync
  import opened BlockStore
  import opened CommitProtocol
  import opened ProtocolProofs
  import opened SharedClient
  import opened ProtocolTheorems

  /** What becomes of a statement: it may fail for a reason of its own, and the client's timer may reject
      it before the server executes it. */
  datatype Fate = Fate(fault: bool, lost: bool)

  /** The fates of the statements of one transaction; those of the two tasks are answered. */
  datatype Fates = Fates(begin: Fate, block: bool, txs: bool, messages: bool, events: bool, update: bool,
      commit: Fate, rollback: Fate)

  function Told(reply: Reply, fate: Fate): Reply {
    if fate.lost then Error else reply
  }

  // -------------------------------------------- following an interleaving

  /** Some interleaving leads from the start of the attempt to `a`. */
  ghost predicate Reached(job: Job, base: Tables, n: Serials, a: Attempt) {
    exists choices :: a == Run(job, Start(base, n), choices)
  }

  lemma ReachedStep(job: Job, base: Tables, n: Serials, a: Attempt, c: Choice)
    requires Reached(job, base, n, a)
    ensures Reached(job, base, n, Step(job, a, c))
  {
    var choices :| a == Run(job, Start(base, n), choices);
    RunSnoc(job, Start(base, n), choices, c);
  }

  /** The head of the queue meets its fate. */
  function Served(job: Job, a: Attempt, fate: Fate): Attempt {
    Step(job, if fate.lost then Step(job, a, Expire(0, false)) else a, Execute(fate.fault, NO_GAP))
  }

  lemma ServedReached(job: Job, base: Tables, n: Serials, a: Attempt, fate: Fate)
    requires Reached(job, base, n, a)
    ensures Reached(job, base, n, Served(job, a, fate))
  {
    ReachedStep(job, base, n, a, Expire(0, false));
    ReachedStep(job, base, n, if fate.lost then Step(job, a, Expire(0, false)) else a, Execute(fate.fault, NO_GAP));
  }

  function First(rejections: seq<Failure>): Option<Failure> {
    if rejections == [] then None else Some(rejections[0])
  }

  /** Both tasks have come to an end, and `failure` is the first rejection. */
  ghost predicate Settled(a: Attempt, failure: Option<Failure>) {
    && a.main == Running && a.queue == [] && !a.applied && CurrentPool(a) && failure == First(a.rejections)
    && (failure.None? ==> a.insert == InsertDone && a.update == UpdateDone)
  }

  /** Only the ROLLBACK is left to do. */
  ghost predicate RollingBack(a: Attempt, cause: Failure) {
    a.main == AwaitRollback(cause) && a.queue == [Entry(Rollback, Main)] && !a.destroyed
  }

  lemma BeginServed(job: Job, base: Tables, n: Serials, fate: Fate)
    ensures var a := Start(base, n);
            var b := Served(job, a, fate);
            var (server, reply) := Exec(a.server, Begin, fate.fault);
            && b.server == server && !b.applied && !b.destroyed
            && (if Told(reply, fate).Error? then RollingBack(b, Rejected(Begin))
                else b == StartBody(job, a.(server := server, queue := [])))
  {
    if fate.lost {
      var a := Step(job, Start(base, n), Expire(0, false));
      assert a.queue == [Entry(Begin, Nobody), Entry(Rollback, Main)];
    }
  }

  lemma CommitServed(job: Job, a: Attempt, fate: Fate)
    requires Settled(a, None)
    ensures var b := Served(job, Step(job, a, Continue), fate);
            var (server, reply) := Exec(a.server, Commit, fate.fault);
            && b.server == server && !b.destroyed && b.spoiled == a.spoiled
            && (b.applied ==> !fate.fault && a.server.session.Open?)
            && (if Told(reply, fate).Error? then RollingBack(b, Rejected(Commit))
                else b.main == Resolved && b.queue == [])
  {
    var a1 := Step(job, a, Continue);
    assert a1.queue == [Entry(Commit, Main)];
    if fate.lost {
      assert Step(job, a1, Expire(0, false)).queue == [Entry(Commit, Nobody), Entry(Rollback, Main)];
    }
  }

  lemma RollbackServed(job: Job, a: Attempt, cause: Failure, fate: Fate)
    requires RollingBack(a, cause)
    ensures var b := Served(job, a, fate);
            var (server, reply) := Exec(a.server, Rollback, fate.fault);
            && b.server == server && b.main == Thrown(cause) && b.queue == [] && b.applied == a.applied
            && b.destroyed == Told(reply, fate).Error?
  {
    if fate.lost {
      assert Step(job, a, Expire(0, false)).queue == [Entry(Rollback, Nobody)];
    }
  }

  // ------------------------------------------------- the statements of the tasks

  function EventsInsert(core: BlockCore): Stmt {
    InsertEvents(core.events, core.time, core.height)
  }

  function TransactionsInsert(core: BlockCore): Stmt {
    InsertTransactions(core.transactions, core.time, core.height)
  }

  /** Of the block only its events, if any, are left to insert. */
  ghost predicate EventsLeft(core: BlockCore, a: Attempt) {
    if core.events != [] then a.insert == AwaitEvents && a.queue == [Entry(EventsInsert(core), Inserter)]
    else a.insert == InsertDone && a.queue == []
  }

  /** Of the block everything but its own row is left to insert. */
  ghost predicate RowsLeft(core: BlockCore, a: Attempt) {
    if core.transactions != [] then
      a.insert == AwaitTransactions && a.queue == [Entry(TransactionsInsert(core), Inserter)]
    else EventsLeft(core, a)
  }

  /** Nothing but the tasks has changed from `a` to `b`. */
  ghost predicate SameWrapper(a: Attempt, b: Attempt) {
    && b.main == a.main && b.applied == a.applied && b.destroyed == a.destroyed && b.spoiled == a.spoiled
    && (a.insert != InsertIdle ==> b.insert != InsertIdle)
  }

  /** How `insertBlock` goes on from `a` to `b` when its statement was answered with `rows`. */
  ghost predicate GoesOn(core: BlockCore, a: Attempt, b: Attempt, server: Server, rows: seq<(nat, nat)>)
    requires a.queue != []
  {
    match a.insert
    case AwaitBlock => b == AfterBlock(core, a.(server := server, queue := a.queue[1..]))
    case AwaitTransactions =>
      if core.messages != [] then
        && b.insert == AwaitMessages
        && b.queue == a.queue[1..] +
                      [Entry(InsertMessages(Link(core.messages, IdMap(rows)), core.height), Inserter)]
      else a.queue[1..] == [] ==> EventsLeft(core, b)
    case AwaitMessages => a.queue[1..] == [] ==> EventsLeft(core, b)
    case AwaitEvents => b.insert == InsertDone && b.queue == a.queue[1..]
    case _ => true
  }

  /** The insert that a task waits for meets its fate, and the task goes on. */
  ghost predicate InsertServed(core: BlockCore, a: Attempt, b: Attempt, fault: bool)
    requires a.queue != []
  {
    var stmt := a.queue[0].stmt;
    var (server, reply) := Exec(a.server, stmt, fault);
    && b.server == server && SameWrapper(a, b) && b.update == a.update
    && (reply.Error? ==>
          b.insert == InsertFailed && b.queue == a.queue[1..] && b.rejections == a.rejections + [Rejected(stmt)])
    && (reply.Ok? ==> b.rejections == a.rejections && GoesOn(core, a, b, server, reply.rows))
  }

  lemma ServeInsert(job: Job, base: Tables, n: Serials, a: Attempt, fault: bool) returns (b: Attempt)
    requires Reached(job, base, n, a) && job.body.Store?
    requires a.queue != [] && a.queue[0].waiter == Inserter && !Control(a.queue[0].stmt) && !a.queue[0].stmt.Read?
    requires a.insert == AwaitBlock ==> a.queue[0].stmt.InsertBlock?
    ensures b == Step(job, a, Execute(fault, NO_GAP)) && Reached(job, base, n, b)
    ensures InsertServed(job.body.core, a, b, fault)
  {
    b := Step(job, a, Execute(fault, NO_GAP));
    ReachedStep(job, base, n, a, Execute(fault, NO_GAP));
    ExecutedPlainly(a, fault);
    var (a1, reply) := Executed(a, fault, NO_GAP);
    InsertResumed(job, a, a1, fault, reply);
  }

  lemma InsertResumed(job: Job, a: Attempt, a1: Attempt, fault: bool, reply: Reply)
    requires job.body.Store? && a.queue != [] && !Control(a.queue[0].stmt)
    requires a.insert == AwaitBlock ==> a.queue[0].stmt.InsertBlock?
    requires var (server, r) := Exec(a.server, a.queue[0].stmt, fault);
             reply == r && Plainly(a, server, a1)
    ensures InsertServed(job.body.core, a, Resume(job, a1, Inserter, a.queue[0].stmt, reply), fault)
  {
    if reply.Ok? { InsertGoesOn(job, a, a1, Exec(a.server, a.queue[0].stmt, fault).0, reply); }
  }

  lemma InsertGoesOn(job: Job, a: Attempt, a1: Attempt, server: Server, reply: Reply)
    requires job.body.Store? && a.queue != [] && !Control(a.queue[0].stmt) && reply.Ok?
    requires a.insert == AwaitBlock ==> a.queue[0].stmt.InsertBlock?
    requires Plainly(a, server, a1)
    ensures var b := Resume(job, a1, Inserter, a.queue[0].stmt, reply);
            && GoesOn(job.body.core, a, b, server, reply.rows)
            && b.server == server && SameWrapper(a, b) && b.update == a.update && b.rejections == a.rejections
  {}

  /** Executing the head of the queue, without skipping ids, up to handing out the reply. */
  ghost predicate Plainly(a: Attempt, server: Server, a1: Attempt)
    requires a.queue != [] && !Control(a.queue[0].stmt)
  {
    a1 == a.(server := server, queue := a.queue[1..], at := Noted(a.at, a.server.serials, a.queue[0].stmt))
  }

  lemma ExecutedPlainly(a: Attempt, fault: bool)
    requires a.queue != [] && !Control(a.queue[0].stmt) && !a.queue[0].stmt.Read?
    ensures var (server, reply) := Exec(a.server, a.queue[0].stmt, fault);
            Plainly(a, server, Executed(a, fault, NO_GAP).0) && Executed(a, fault, NO_GAP).1 == reply
  {
    SkipNothing(a.server.serials);
    assert a.server.(serials := a.server.serials) == a.server;
  }

  lemma SkipNothing(n: Serials)
    ensures Skip(n, NO_GAP) == n
  {}

  lemma ServeUpdate(job: Job, base: Tables, n: Serials, a: Attempt, fault: bool) returns (b: Attempt)
    requires Reached(job, base, n, a)
    requires a.queue != [] && a.queue[0] == Entry(UpdateChain(job.chainId, job.height), Updater)
    ensures b == Step(job, a, Execute(fault, NO_GAP)) && Reached(job, base, n, b)
    ensures var (server, reply) := Exec(a.server, a.queue[0].stmt, fault);
            b == if reply.Ok? then a.(server := server, queue := a.queue[1..], update := UpdateDone)
                 else a.(server := server, queue := a.queue[1..], update := UpdateFailed,
                         rejections := a.rejections + [Rejected(a.queue[0].stmt)])
  {
    b := Step(job, a, Execute(fault, NO_GAP));
    ReachedStep(job, base, n, a, Execute(fault, NO_GAP));
    ExecutedPlainly(a, fault);
  }

  /** The guarantees of an attempt that has come to its end. */
  lemma ReachedOutcome(job: Job, base: Tables, n: Serials, a: Attempt)
    requires JobOk(job) && Consistent(base, n) && Reached(job, base, n, a)
    ensures Consistent(a.server.committed, a.server.serials)
    ensures a.main == Resolved ==> a.rejections == [] && job.body.Store? && job.height !in base.blocks
    ensures a.main == Resolved ==> (a.applied <==> !a.spoiled)
    ensures !a.applied ==> a.server.committed == base
    ensures a.applied ==> !a.spoiled && job.body.Store? && a.server.committed == Target(job, base, a.at)
    ensures a.main.Thrown? ==> First(a.rejections) == Some(a.main.cause) && a.main.cause != Rejected(Rollback)
    ensures a.main.Thrown? && !a.destroyed ==> a.server.session.Idle?
  {
    var choices :| a == Run(job, Start(base, n), choices);
    RunKeeps(job, base, n, choices);
    if a.applied {
      WithBlockConsistent(base, n, job.chainId, job.body.core, a.at, a.server.serials);
    }
  }

  lemma ReachedWritten(job: Job, base: Tables, n: Serials, a: Attempt)
    requires JobOk(job) && Consistent(base, n) && Reached(job, base, n, a)
    requires Settled(a, None) && !a.spoiled
    ensures job.body.Store? && a.server.session == Open(Target(job, base, a.at))
  {
    var choices :| a == Run(job, Start(base, n), choices);
    RunKeeps(job, base, n, choices);
    var b :| Inv(job, base, n, b) && Mirrors(a, b);
    BothDone(job, base, n, b);
  }

  lemma ReachedIdle(job: Job, base: Tables, n: Serials, a: Attempt)
    requires JobOk(job) && Consistent(base, n) && Reached(job, base, n, a) && a.main == Resolved
    ensures a.server.session.Idle? && !a.destroyed
  {
    var choices :| a == Run(job, Start(base, n), choices);
    RunKeeps(job, base, n, choices);
  }

  /** What a transaction that has ended has done. */
  lemma EndOutcome(job: Job, base: Tables, n: Serials, a: Attempt, thrown: Option<Failure>, f: Fates,
                   requests: seq<Request>)
    requires JobOk(job) && Consistent(base, n) && Reached(job, base, n, a)
    requires a.main == match thrown case None => Resolved case Some(cause) => Thrown(cause)
    requires thrown.None? ==> (a.spoiled <==> !AllAnswerable(requests))
    requires thrown.Some? && a.applied ==> f.commit == Fate(false, true) && AllAnswerable(requests)
    ensures Consistent(a.server.committed, a.server.serials)
    ensures thrown == First(a.rejections) && thrown != Some(Rejected(Rollback))
    ensures thrown.None? ==> job.body.Store? && job.height !in base.blocks
    ensures thrown.None? ==> a.server.committed == if AllAnswerable(requests) then Target(job, base, a.at) else base
    ensures thrown.Some? ==>
              || a.server.committed == base
              || (f.commit == Fate(false, true) && AllAnswerable(requests) &&
                  job.body.Store? && a.server.committed == Target(job, base, a.at))
    ensures !a.destroyed && thrown.Some? ==> a.server.session.Idle?
  {
    ReachedOutcome(job, base, n, a);
  }

  // ------------------------------------------------------------------ readers

  predicate AllAnswerable(requests: seq<Request>) {
    forall k :: 0 <= k < |requests| ==> Answerable(requests[k])
  }

  /** Readers were served when nothing else was waiting: those of them that were refused have aborted the
      transaction, if it was open. */
  ghost predicate ReadersServed(a: Attempt, b: Attempt, requests: seq<Request>) {
    var aborted := a.server.session.Open? && !AllAnswerable(requests);
    && b == a.(server := b.server, spoiled := a.spoiled || aborted)
    && b.server == a.server.(session := if aborted then Failed else a.server.session)
  }

  lemma ServeReader(job: Job, base: Tables, n: Serials, a: Attempt, r: Request) returns (b: Attempt)
    requires Reached(job, base, n, a) && a.queue == [] && CurrentPool(a)
    ensures Reached(job, base, n, b) && ReadersServed(a, b, [r])
    ensures b.server == Exec(a.server, Read(r), false).0
  {
    ReachedStep(job, base, n, a, Ask(r));
    ReachedStep(job, base, n, Step(job, a, Ask(r)), Execute(false, NO_GAP));
    b := Step(job, Step(job, a, Ask(r)), Execute(false, NO_GAP));
    ReaderAlone(job, a, r);
  }

  lemma ReaderAlone(job: Job, a: Attempt, r: Request)
    requires a.queue == [] && CurrentPool(a)
    ensures var b := Step(job, Step(job, a, Ask(r)), Execute(false, NO_GAP));
            ReadersServed(a, b, [r]) && b.server == Exec(a.server, Read(r), false).0
  {
    var a1 := Step(job, a, Ask(r));
    assert a1.queue == [Entry(Read(r), Reader)] && a1.queue[1..] == [];
    assert AllAnswerable([r]) <==> Answerable([r][0]);
  }

  lemma ReadersSnoc(a: Attempt, b: Attempt, c: Attempt, requests: seq<Request>, r: Request)
    requires ReadersServed(a, b, requests) && ReadersServed(b, c, [r])
    ensures ReadersServed(a, c, requests + [r])
  {
    assert AllAnswerable([r]) <==> Answerable([r][0]);
    assert AllAnswerable(requests + [r]) <==> AllAnswerable(requests) && Answerable(r) by {
      assert (requests + [r])[|requests|] == r;
      assert forall k :: 0 <= k < |requests| ==> (requests + [r])[k] == requests[k];
    }
  }

  // ---------------------------------------------------------------- callbacks

  /** The server and the replies after the statements that a callback sends, each with its fate. */
  function Scripted(s: Server, script: seq<(Stmt, Fate)>): (Server, seq<Reply>) {
    if script == [] then (s, []) else
    var (stmt, fate) := script[|script| - 1];
    var (before, replies) := Scripted(s, script[..|script| - 1]);
    var (after, reply) := Exec(before, stmt, fate.fault);
    (after, replies + [Told(reply, fate)])
  }

  /** Data statements leave a session without a transaction as it is. */
  lemma {:induction false} ScriptedIdle(s: Server, script: seq<(Stmt, Fate)>)
    requires s.session.Idle? && forall k :: 0 <= k < |script| ==> !Control(script[k].0)
    ensures Scripted(s, script).0.session.Idle?
  {
    if script == [] {
    } else {
      ScriptedIdle(s, script[..|script| - 1]);
    }
  }

  class Client {
    var session: Session
    var releases: nat
    var destroyed: bool

    constructor ()
      ensures session == Idle && releases == 0 && !destroyed
    {
      session, releases, destroyed := Idle, 0, false;
    }
  }

  class Pool {
    var committed: Tables
    var serials: Serials
    var idle: set<Client>
    var currentPool: Client?

    /** Clients waiting for reuse have no transaction and were never destroyed. */
    ghost predicate Valid()
      reads this, idle
    {
      forall c :: c in idle ==> c.session.Idle? && !c.destroyed
    }

    constructor (t: Tables, n: Serials)
      ensures Valid() && committed == t && serials == n && idle == {} && currentPool == null
    {
      committed, serials, idle, currentPool := t, n, {}, null;
    }

    function ServerOf(c: Client): Server
      reads this, c
    {
      Server(committed, c.session, serials)
    }

    /** The client and the database are where the interleaving that led to `a` leaves them. */
    ghost predicate Follows(c: Client, job: Job, base: Tables, n: Serials, a: Attempt)
      reads this, c
    {
      Reached(job, base, n, a) && ServerOf(c) == a.server
    }

    method Connect() returns (c: Client)
      requires Valid()
      modifies this`idle
      ensures Valid() && c !in idle && c.session.Idle? && !c.destroyed
      ensures if c in old(idle) then idle == old(idle) - {c} else fresh(c) && idle == old(idle) && c.releases == 0
    {
      if idle != {} {
        c :| c in idle;
        idle := idle - {c};
      } else {
        c := new Client();
      }
    }

    /** `client.release(err)`: with an error the pool destroys the client instead of reusing it. */
    method Release(c: Client, err: bool)
      requires Valid() && c !in idle && !c.destroyed
      modifies this`idle, c`releases, c`destroyed
      ensures Valid() <==> err || c.session.Idle?
      ensures c.releases == old(c.releases) + 1 && c.destroyed == err
      ensures idle == if err then old(idle) else old(idle) + {c}
    {
      c.releases := c.releases + 1;
      if err {
        c.destroyed := true;
      } else {
        idle := idle + {c};
      }
    }

    method Query(c: Client, stmt: Stmt, fate: Fate) returns (reply: Reply)
      modifies this`committed, this`serials, c`session
      ensures var (server, r) := Exec(old(ServerOf(c)), stmt, fate.fault);
              ServerOf(c) == server && reply == Told(r, fate)
    {
      var (server, r) := Exec(ServerOf(c), stmt, fate.fault);
      committed, serials, c.session := server.committed, server.serials, server.session;
      reply := Told(r, fate);
    }

    /** A statement goes to the client of the running transaction, or else to some client of the pool,
        where it commits on its own. */
    method DbQuery(stmt: Stmt, fate: Fate) returns (reply: Reply)
      modifies this`committed, this`serials, (if currentPool != null then {currentPool} else {})`session
      ensures currentPool != null ==>
                var (server, r) := Exec(old(ServerOf(currentPool)), stmt, fate.fault);
                ServerOf(currentPool) == server && reply == Told(r, fate)
      ensures currentPool == null ==>
                var (server, r) := Exec(Server(old(committed), Idle, old(serials)), stmt, fate.fault);
                committed == server.committed && serials == server.serials && reply == Told(r, fate)
    {
      if currentPool != null {
        reply := Query(currentPool, stmt, fate);
      } else {
        var c := new Client();
        reply := Query(c, stmt, fate);
      }
    }

    /** `new Map(rows.map(r => [r.txIndex, r.id]))`. */
    method MapIds(rows: seq<(nat, nat)>) returns (ids: map<nat, nat>)
      ensures ids == IdMap(rows)
    {
      ids := map[];
      for i := 0 to |rows|
        invariant ids == IdMap(rows[..i])
      {
        assert rows[..i + 1][..i] == rows[..i];
        ids := ids[rows[i].0 := rows[i].1];
      }
      assert rows[..|rows|] == rows;
    }

    /** The messages, if any, each linked to the id its parent got. */
    method InsertLinked(core: BlockCore, ids: map<nat, nat>, f: Fates, ghost job: Job, ghost base: Tables,
                        ghost n: Serials, ghost before: Attempt)
        returns (failure: Option<Failure>, ghost a: Attempt)
      requires currentPool != null && Follows(currentPool, job, base, n, before) && !currentPool.session.Idle?
      requires job.body == Store(core)
      requires if core.messages == [] then EventsLeft(core, before) else
                 before.insert == AwaitMessages &&
                 before.queue == [Entry(InsertMessages(Link(core.messages, ids), core.height), Inserter)]
      modifies this`committed, this`serials, currentPool`session
      ensures Follows(currentPool, job, base, n, a) && SameWrapper(before, a) && a.update == before.update
      ensures failure.None? ==> a.rejections == before.rejections && EventsLeft(core, a)
      ensures failure.Some? ==> a.rejections == before.rejections + [failure.value] && a.queue == []
      ensures !currentPool.session.Idle?
      ensures failure.Some? || old(currentPool.session).Failed? ==> currentPool.session.Failed?
    {
      failure, a := None, before;
      if |core.messages| > 0 {
        var messages := InsertMessages(Link(core.messages, ids), core.height);
        var reply := DbQuery(messages, Fate(f.messages, false));
        a := ServeInsert(job, base, n, a, f.messages);
        if reply.Error? {
          failure := Some(Rejected(messages));
        }
      }
    }

    /** The transactions, if any, and their messages. */
    method InsertChildren(core: BlockCore, f: Fates, ghost job: Job, ghost base: Tables, ghost n: Serials,
                          ghost before: Attempt) returns (failure: Option<Failure>, ghost a: Attempt)
      requires currentPool != null && Follows(currentPool, job, base, n, before) && !currentPool.session.Idle?
      requires job.body == Store(core) && RowsLeft(core, before)
      modifies this`committed, this`serials, currentPool`session
      ensures Follows(currentPool, job, base, n, a) && SameWrapper(before, a) && a.update == before.update
      ensures failure.None? ==> a.rejections == before.rejections && EventsLeft(core, a)
      ensures failure.Some? ==> a.rejections == before.rejections + [failure.value] && a.queue == []
      ensures !currentPool.session.Idle?
      ensures failure.Some? || old(currentPool.session).Failed? ==> currentPool.session.Failed?
    {
      failure, a := None, before;
      if |core.transactions| > 0 {
        var insert := TransactionsInsert(core);
        var reply := DbQuery(insert, Fate(f.txs, false));
        a := ServeInsert(job, base, n, a, f.txs);
        if reply.Error? {
          failure := Some(Rejected(insert));
        } else {
          var ids := MapIds(reply.rows);
          failure, a := InsertLinked(core, ids, f, job, base, n, a);
        }
      }
    }

    /** `insertBlock` after its first statement. */
    method InsertRows(core: BlockCore, f: Fates, ghost job: Job, ghost base: Tables, ghost n: Serials,
                      ghost before: Attempt) returns (failure: Option<Failure>, ghost a: Attempt)
      requires currentPool != null && Follows(currentPool, job, base, n, before)
      requires job.body == Store(core) && RowsLeft(core, before) && !currentPool.session.Idle?
      modifies this`committed, this`serials, currentPool`session
      ensures Follows(currentPool, job, base, n, a) && SameWrapper(before, a) && a.update == before.update
      ensures a.queue == []
      ensures failure.None? ==> a.rejections == before.rejections && a.insert == InsertDone
      ensures failure.Some? ==> a.rejections == before.rejections + [failure.value]
      ensures !currentPool.session.Idle?
      ensures failure.Some? || old(currentPool.session).Failed? ==> currentPool.session.Failed?
    {
      failure, a := InsertChildren(core, f, job, base, n, before);
      if failure.Some? {
        return;
      }
      if |core.events| > 0 {
        var events := EventsInsert(core);
        var reply := DbQuery(events, Fate(f.events, false));
        a := ServeInsert(job, base, n, a, f.events);
        if reply.Error? {
          return Some(Rejected(events)), a;
        }
      }
    }

    /** The transaction body of the sync loop: `Promise.all` of `insertBlock` and `updateChain`. On success
        the open transaction holds the whole block and the checkpoint; a refused statement has aborted it. */
    method RunBody(job: Job, f: Fates, ghost base: Tables, ghost n: Serials, ghost begun: Attempt)
        returns (failure: Option<Failure>, ghost a: Attempt)
      requires JobOk(job) && Consistent(base, n) && currentPool != null
      requires Follows(currentPool, job, base, n, begun) && currentPool.session.Open?
      requires begun == StartBody(job, Start(base, n).(server := begun.server, queue := []))
      modifies this`committed, this`serials, currentPool`session
      ensures Follows(currentPool, job, base, n, a) && Settled(a, failure) && !a.spoiled && committed == base
      ensures failure.None? ==> job.body.Store? && currentPool.session == Open(Target(job, base, a.at))
      ensures failure.Some? && failure.value != BodyThrew ==> currentPool.session.Failed?
    {
      failure, a := None, begun;
      match job.body {
        case FnThrows =>
          failure := Some(BodyThrew);
        case BlockThrows =>
          failure, a := UpdateAndRows(job, f, base, n, a, Some(BodyThrew));
        case Store(core) =>
          failure, a := StoreRows(core, job, f, base, n, a);
      }
      ReachedOutcome(job, base, n, a);
      if failure.None? {
        ReachedWritten(job, base, n, a);
      }
    }

    /** `insertBlock` and `updateChain`, in the order of the connection. */
    method StoreRows(core: BlockCore, job: Job, f: Fates, ghost base: Tables, ghost n: Serials, ghost begun: Attempt)
        returns (failure: Option<Failure>, ghost a: Attempt)
      requires currentPool != null && job.body == Store(core)
      requires Follows(currentPool, job, base, n, begun) && currentPool.session.Open?
      requires begun == StartBody(job, Start(base, n).(server := begun.server, queue := []))
      modifies this`committed, this`serials, currentPool`session
      ensures Follows(currentPool, job, base, n, a) && Settled(a, failure) && !a.spoiled
      ensures failure.Some? && failure.value != BodyThrew ==> currentPool.session.Failed?
    {
      var insert := InsertBlock(core.height, core.hash, core.time);
      var reply := DbQuery(insert, Fate(f.block, false));
      a := ServeInsert(job, base, n, begun, f.block);
      failure, a := UpdateAndRows(job, f, base, n, a, if reply.Error? then Some(Rejected(insert)) else None);
    }

    /** `updateChain`. */
    method SetCheckpoint(job: Job, f: Fates, ghost base: Tables, ghost n: Serials, ghost before: Attempt)
        returns (failure: Option<Failure>, ghost a: Attempt)
      requires currentPool != null && Follows(currentPool, job, base, n, before) && !currentPool.session.Idle?
      requires before.queue != [] && before.queue[0] == Entry(UpdateChain(job.chainId, job.height), Updater)
      modifies this`committed, this`serials, currentPool`session
      ensures Follows(currentPool, job, base, n, a) && SameWrapper(before, a)
      ensures a.insert == before.insert && a.queue == before.queue[1..]
      ensures a.update == (if failure.None? then UpdateDone else UpdateFailed)
      ensures a.rejections == match failure case None => before.rejections case Some(e) => before.rejections + [e]
      ensures failure.None? || failure.value == Rejected(UpdateChain(job.chainId, job.height))
      ensures !currentPool.session.Idle?
      ensures failure.Some? || old(currentPool.session).Failed? ==> currentPool.session.Failed?
    {
      var update := UpdateChain(job.chainId, job.height);
      var reply := DbQuery(update, Fate(f.update, false));
      a := ServeUpdate(job, base, n, before, f.update);
      failure := if reply.Error? then Some(Rejected(update)) else None;
    }

    /** `updateChain`, and the rest of `insertBlock` unless that has failed already. */
    method UpdateAndRows(job: Job, f: Fates, ghost base: Tables, ghost n: Serials, ghost before: Attempt,
                         early: Option<Failure>) returns (failure: Option<Failure>, ghost a: Attempt)
      requires currentPool != null && Follows(currentPool, job, base, n, before) && !currentPool.session.Idle?
      requires before.main == Running && !before.applied && CurrentPool(before) && early == First(before.rejections)
      requires before.queue != [] && before.queue[0] == Entry(UpdateChain(job.chainId, job.height), Updater)
      requires if early.None? then job.body.Store? && RowsLeft(job.body.core, before.(queue := before.queue[1..]))
               else before.queue[1..] == []
      requires early.Some? && early.value != BodyThrew ==> currentPool.session.Failed?
      modifies this`committed, this`serials, currentPool`session
      ensures Follows(currentPool, job, base, n, a) && Settled(a, failure) && a.spoiled == before.spoiled
      ensures failure.Some? && failure.value != BodyThrew ==> currentPool.session.Failed?
    {
      failure, a := SetCheckpoint(job, f, base, n, before);
      if early.Some? {
        failure := early;
      } else {
        var rest;
        rest, a := InsertRows(job.body.core, f, job, base, n, a);
        if failure.None? {
          failure := rest;
        }
      }
    }

    /** Readers whose queries reach the client of the transaction. */
    method ServeReaders(requests: seq<Request>, ghost job: Job, ghost base: Tables, ghost n: Serials,
                        ghost before: Attempt) returns (ghost a: Attempt)
      requires currentPool != null && Follows(currentPool, job, base, n, before)
      requires before.queue == [] && CurrentPool(before)
      modifies this`committed, this`serials, currentPool`session
      ensures Follows(currentPool, job, base, n, a) && ReadersServed(before, a, requests)
    {
      a := before;
      for k := 0 to |requests|
        invariant Follows(currentPool, job, base, n, a) && ReadersServed(before, a, requests[..k])
      {
        var reply := DbQuery(Read(requests[k]), Fate(false, false));
        ghost var b := a;
        a := ServeReader(job, base, n, b, requests[k]);
        ReadersSnoc(before, b, a, requests[..k], requests[k]);
        assert requests[..k + 1] == requests[..k] + [requests[k]];
      }
      assert requests[..|requests|] == requests;
    }

    /** The try block of `withTransaction`: BEGIN, the body, COMMIT. `requests` is what readers send when the
        tasks have ended and COMMIT has not been sent. */
    method TryTransaction(client: Client, job: Job, f: Fates, requests: seq<Request>)
        returns (thrown: Option<Failure>, ghost a: Attempt)
      requires JobOk(job) && Consistent(committed, serials) && client.session.Idle?
      modifies this`committed, this`serials, this`currentPool, client`session
      ensures Follows(client, job, old(committed), old(serials), a) && !a.destroyed
      ensures thrown.None? ==> a.main == Resolved && a.queue == [] && (a.spoiled <==> !AllAnswerable(requests))
      ensures thrown.Some? ==> RollingBack(a, thrown.value)
      ensures thrown.Some? && a.applied ==> f.commit == Fate(false, true) && AllAnswerable(requests)
    {
      ghost var base, n := committed, serials;
      a := Start(base, n);
      assert Run(job, a, []) == a;
      var reply := Query(client, Begin, f.begin);
      BeginServed(job, base, n, f.begin);
      ServedReached(job, base, n, a, f.begin);
      a := Served(job, a, f.begin);
      if reply.Error? {
        return Some(Rejected(Begin)), a;
      }
      currentPool := client;
      thrown, a := BodyAndCommit(client, job, f, requests, base, n, a);
    }

    /** The try block after BEGIN. */
    method BodyAndCommit(client: Client, job: Job, f: Fates, requests: seq<Request>, ghost base: Tables,
                         ghost n: Serials, ghost begun: Attempt)
        returns (thrown: Option<Failure>, ghost a: Attempt)
      requires JobOk(job) && Consistent(base, n) && currentPool == client
      requires Follows(client, job, base, n, begun) && client.session.Open?
      requires begun == StartBody(job, Start(base, n).(server := begun.server, queue := []))
      modifies this`committed, this`serials, client`session
      ensures Follows(client, job, base, n, a) && !a.destroyed
      ensures thrown.None? ==> a.main == Resolved && a.queue == [] && (a.spoiled <==> !AllAnswerable(requests))
      ensures thrown.Some? ==> RollingBack(a, thrown.value)
      ensures thrown.Some? && a.applied ==> f.commit == Fate(false, true) && AllAnswerable(requests)
    {
      thrown, a := RunBody(job, f, base, n, begun);
      a := ServeReaders(requests, job, base, n, a);
      if thrown.None? {
        thrown, a := TryCommit(client, job, f, base, n, a);
      } else {
        ReachedStep(job, base, n, a, Continue);
        a := Step(job, a, Continue);
      }
    }

    /** COMMIT, when both tasks have ended well. */
    method TryCommit(client: Client, job: Job, f: Fates, ghost base: Tables, ghost n: Serials, ghost before: Attempt)
        returns (thrown: Option<Failure>, ghost a: Attempt)
      requires Follows(client, job, base, n, before) && Settled(before, None)
      requires before.spoiled <==> before.server.session.Failed?
      modifies this`committed, this`serials, client`session
      ensures Follows(client, job, base, n, a) && !a.destroyed && a.spoiled == before.spoiled
      ensures thrown.None? ==> a.main == Resolved && a.queue == []
      ensures thrown.Some? ==> RollingBack(a, thrown.value)
      ensures thrown.Some? && a.applied ==> f.commit == Fate(false, true) && !before.spoiled
    {
      var reply := Query(client, Commit, f.commit);
      CommitServed(job, before, f.commit);
      ReachedStep(job, base, n, before, Continue);
      ServedReached(job, base, n, Step(job, before, Continue), f.commit);
      a := Served(job, Step(job, before, Continue), f.commit);
      thrown := if reply.Error? then Some(Rejected(Commit)) else None;
    }

    /** The try and catch blocks of `withTransaction`; `connErr` says that the ROLLBACK failed. */
    method TryCatch(client: Client, job: Job, f: Fates, requests: seq<Request>)
        returns (thrown: Option<Failure>, connErr: bool, ghost a: Attempt)
      requires JobOk(job) && Consistent(committed, serials) && client.session.Idle?
      modifies this`committed, this`serials, this`currentPool, client`session
      ensures Consistent(committed, serials)
      ensures Follows(client, job, old(committed), old(serials), a) && a.queue == []
      ensures a.main == match thrown case None => Resolved case Some(cause) => Thrown(cause)
      ensures thrown == First(a.rejections) && thrown != Some(Rejected(Rollback))
      ensures thrown.None? ==> job.body.Store? && job.height !in old(committed).blocks
      ensures thrown.None? ==>
                committed == if AllAnswerable(requests) then Target(job, old(committed), a.at) else old(committed)
      ensures thrown.Some? ==>
                || committed == old(committed)
                || (f.commit == Fate(false, true) && AllAnswerable(requests) &&
                    job.body.Store? && committed == Target(job, old(committed), a.at))
      ensures connErr == a.destroyed && (connErr <==> thrown.Some? && f.rollback != Fate(false, false))
      ensures !connErr ==> client.session.Idle?
    {
      connErr := false;
      thrown, a := TryTransaction(client, job, f, requests);
      if thrown.Some? {
        var reply := Query(client, Rollback, f.rollback);
        RollbackServed(job, a, thrown.value, f.rollback);
        ServedReached(job, old(committed), old(serials), a, f.rollback);
        a := Served(job, a, f.rollback);
        connErr := reply.Error?;
      }
      EndOutcome(job, old(committed), old(serials), a, thrown, f, requests);
      if thrown.None? { ReachedIdle(job, old(committed), old(serials), a); }
    }

    /** `withTransaction` with the sync loop's body is one of the interleavings of CommitProtocol. On return the
        committed tables hold the whole block and the checkpoint if every reader that shared the client was
        answered, and are unchanged if one was refused; on a throw they are unchanged, unless the timer rejected
        a COMMIT that took effect. The client it took is released once; it is destroyed exactly when its ROLLBACK
        failed, and else goes back to the pool without a transaction; the caller sees the first rejection; every
        other client is left alone. */
    method WithTransaction(job: Job, f: Fates, requests: seq<Request>)
        returns (thrown: Option<Failure>, ghost c: Client, ghost a: Attempt)
      requires Valid() && JobOk(job) && Consistent(committed, serials)
      modifies this, idle
      ensures Valid() && Consistent(committed, serials)
      ensures Follows(c, job, old(committed), old(serials), a) && a.queue == []
      ensures a.main == match thrown case None => Resolved case Some(cause) => Thrown(cause)
      ensures thrown == First(a.rejections) && thrown != Some(Rejected(Rollback))
      ensures thrown.None? ==> job.body.Store? && job.height !in old(committed).blocks
      ensures thrown.None? ==>
                committed == if AllAnswerable(requests) then Target(job, old(committed), a.at) else old(committed)
      ensures thrown.Some? ==>
                || committed == old(committed)
                || (f.commit == Fate(false, true) && AllAnswerable(requests) &&
                    job.body.Store? && committed == Target(job, old(committed), a.at))
      ensures c in old(idle) || fresh(c)
      ensures c.releases == (if c in old(idle) then old(c.releases) else 0) + 1
      ensures idle == if c.destroyed then old(idle) - {c} else old(idle) + {c}
      ensures c.destroyed == a.destroyed && (c.destroyed <==> thrown.Some? && f.rollback != Fate(false, false))
      ensures !c.destroyed ==> c.session.Idle?
      ensures forall d :: d in old(idle) && d != c ==> unchanged(d)
    {
      var client := Connect();
      c := client;
      var connErr;
      thrown, connErr, a := TryCatch(client, job, f, requests);
      Release(client, connErr);
    }

    /** The transaction of one loop iteration: `currentPool` is unset at the loop head. */
    method StoreBlock(job: Job, f: Fates, requests: seq<Request>) returns (thrown: Option<Failure>)
      requires Valid() && JobOk(job) && Consistent(committed, serials)
      modifies this, idle
      ensures Valid() && Consistent(committed, serials)
      ensures thrown.None? && AllAnswerable(requests) ==>
                exists at :: job.body.Store? && committed == Target(job, old(committed), at)
      ensures thrown.None? && !AllAnswerable(requests) ==> committed == old(committed)
      ensures thrown.Some? && f.commit != Fate(false, true) ==> committed == old(committed)
    {
      currentPool := null;
      ghost var c, a;
      thrown, c, a := WithTransaction(job, f, requests);
    }

    /** The callback of `withQuery` sends its statements one after the other. */
    method RunCallback(c: Client, script: seq<(Stmt, Fate)>) returns (replies: seq<Reply>)
      modifies this`committed, this`serials, c`session
      ensures (ServerOf(c), replies) == Scripted(old(ServerOf(c)), script)
    {
      replies := [];
      for k := 0 to |script|
        invariant (ServerOf(c), replies) == Scripted(old(ServerOf(c)), script[..k])
      {
        assert script[..k + 1][..k] == script[..k];
        var reply := Query(c, script[k].0, script[k].1);
        replies := replies + [reply];
      }
      assert script[..|script|] == script;
    }

    /** `withQuery`: `script` is what the callback sends, and `throws` whether it ends by throwing. Then the
        client is destroyed, otherwise it is reused, which is sound exactly when the callback leaves no
        transaction behind, as with data statements only. */
    method WithQuery(script: seq<(Stmt, Fate)>, throws: bool) returns (replies: seq<Reply>, ghost c: Client)
      requires Valid()
      modifies this, idle
      ensures Valid() <==> throws || c.session.Idle?
      ensures (forall k :: 0 <= k < |script| ==> !Control(script[k].0)) ==> Valid()
      ensures currentPool == old(currentPool)
      ensures (ServerOf(c), replies) == Scripted(Server(old(committed), Idle, old(serials)), script)
      ensures c in old(idle) || fresh(c)
      ensures c.releases == (if c in old(idle) then old(c.releases) else 0) + 1
      ensures c.destroyed == throws
      ensures idle == if throws then old(idle) - {c} else old(idle) + {c}
      ensures forall d :: d in old(idle) && d != c ==> unchanged(d)
    {
      var client := Connect();
      c := client;
      replies := RunCallback(client, script);
      if forall k :: 0 <= k < |script| ==> !Control(script[k].0) {
        ScriptedIdle(Server(old(committed), Idle, old(serials)), script);
      }
      Release(client, throws);
    }
  }
}
