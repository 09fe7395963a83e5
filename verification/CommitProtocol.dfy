/** One attempt to store a block: `withTransaction` around a `Promise.all` of two tasks that share one
    connection (src/postgres/client.ts, src/postgres/block.ts, src/sync/sync_blocks.ts).

    The connection is a first-in-first-out queue of statements. Three activities of the attempt wait on its
    replies: the transaction wrapper, the block task and the checkpoint task. `dbQuery` puts the statements of
    readers (src/app.ts) into the same queue. A client-side timer may reject a waiting activity at any moment
    while the server goes on executing the statement. */
module CommitProtocol {
  import opened RawData
  import opened Database
  import opened BlockSync
  import opened BlockStore

  /** Who waits for a statement's reply; `Nobody` once its timer has fired. */
  datatype Waiter = Main | Inserter | Updater | Reader | Nobody

  datatype Entry = Entry(stmt: Stmt, waiter: Waiter)

  datatype InsertPc =
    InsertIdle | AwaitBlock | AwaitTransactions | AwaitMessages | AwaitEvents | InsertDone | InsertFailed

  datatype UpdatePc = UpdateIdle | AwaitUpdate | UpdateDone | UpdateFailed

  datatype Failure = BodyThrew | Rejected(stmt: Stmt)

  datatype MainPc =
    | AwaitBegin
    | Running
    | AwaitCommit
    | AwaitRollback(cause: Failure)
    | Resolved
    | Thrown(cause: Failure)

  /** `rejections`, `applied`, `at` and `spoiled` are history: every rejection in order, whether COMMIT took
      effect, the first ids drawn by the three child inserts, and whether a reader's statement failed in the
      open transaction and so aborted it. */
  datatype Attempt = Attempt(
    server: Server, queue: seq<Entry>, main: MainPc, insert: InsertPc, update: UpdatePc,
    releases: nat, destroyed: bool, rejections: seq<Failure>, applied: bool, at: Serials, spoiled: bool)

  /** What happens next: the server executes the head of the queue (ids may skip by `gap`), the timer of
      the k-th statement fires (it may be withdrawn, and then never executes), the wrapper sees that
      `Promise.all` has settled, or a reader sends a statement. */
  datatype Choice =
    | Execute(fault: bool, gap: Serials)
    | Expire(k: nat, withdraw: bool)
    | Continue
    | Ask(request: Request)

  // ------------------------------------------------------------------ the steps

  function Enqueue(a: Attempt, stmt: Stmt, waiter: Waiter): Attempt {
    a.(queue := a.queue + [Entry(stmt, waiter)])
  }

  function Reject(a: Attempt, f: Failure): Attempt {
    a.(rejections := a.rejections + [f])
  }

  function ToRollback(a: Attempt, cause: Failure): Attempt {
    Enqueue(a.(main := AwaitRollback(cause)), Rollback, Main)
  }

  /** The transaction body starts both tasks; each runs up to its first statement. */
  function StartBody(job: Job, a: Attempt): Attempt {
    var a1 := a.(main := Running);
    match job.body
    case FnThrows => Reject(a1.(insert := InsertFailed), BodyThrew)
    case BlockThrows =>
      Enqueue(Reject(a1.(insert := InsertFailed, update := AwaitUpdate), BodyThrew),
              UpdateChain(job.chainId, job.height), Updater)
    case Store(core) =>
      Enqueue(Enqueue(a1.(insert := AwaitBlock, update := AwaitUpdate),
                      InsertBlock(core.height, core.hash, core.time), Inserter),
              UpdateChain(job.chainId, job.height), Updater)
  }

  function ToEvents(core: BlockCore, a: Attempt): Attempt {
    if |core.events| > 0 then
      Enqueue(a.(insert := AwaitEvents), InsertEvents(core.events, core.time, core.height), Inserter)
    else a.(insert := InsertDone)
  }

  function AfterBlock(core: BlockCore, a: Attempt): Attempt {
    if |core.transactions| > 0 then
      Enqueue(a.(insert := AwaitTransactions), InsertTransactions(core.transactions, core.time, core.height), Inserter)
    else ToEvents(core, a)
  }

  function AfterTransactions(core: BlockCore, a: Attempt, rows: seq<(nat, nat)>): Attempt {
    if |core.messages| > 0 then
      Enqueue(a.(insert := AwaitMessages), InsertMessages(Link(core.messages, IdMap(rows)), core.height), Inserter)
    else ToEvents(core, a)
  }

  /** The client gives the connection up: only a statement already sent can still execute. */
  function Destroy(a: Attempt, cause: Failure): Attempt {
    a.(main := Thrown(cause), releases := a.releases + 1, destroyed := true,
       queue := if a.queue == [] then [] else [Entry(a.queue[0].stmt, Nobody)],
       insert := if a.insert.InsertDone? || a.insert.InsertIdle? then a.insert else InsertFailed,
       update := if a.update.AwaitUpdate? then UpdateFailed else a.update)
  }

  /** The reply to `stmt` reaches the activity that waits for it. */
  function Resume(job: Job, a: Attempt, waiter: Waiter, stmt: Stmt, reply: Reply): Attempt {
    match waiter
    case Nobody => a
    case Reader => a
    case Main =>
      if reply.Ok? then
        match a.main
        case AwaitBegin => StartBody(job, a)
        case AwaitCommit => a.(main := Resolved, releases := a.releases + 1)
        case AwaitRollback(cause) => a.(main := Thrown(cause), releases := a.releases + 1)
        case _ => a
      else
        var a1 := Reject(a, Rejected(stmt));
        (match a.main
         case AwaitRollback(cause) => Destroy(a1, cause)
         case _ => ToRollback(a1, Rejected(stmt)))
    case Updater =>
      if reply.Ok? then a.(update := UpdateDone) else Reject(a.(update := UpdateFailed), Rejected(stmt))
    case Inserter =>
      if reply.Error? then Reject(a.(insert := InsertFailed), Rejected(stmt))
      else if !job.body.Store? then a
      else
        var core := job.body.core;
        match a.insert
        case AwaitBlock => AfterBlock(core, a)
        case AwaitTransactions => AfterTransactions(core, a, reply.rows)
        case AwaitMessages => ToEvents(core, a)
        case AwaitEvents => a.(insert := InsertDone)
        case _ => a
  }

  function Skip(n: Serials, gap: Serials): Serials {
    Serials(n.tx + gap.tx, n.message + gap.message, n.event + gap.event)
  }

  function Noted(at: Serials, n: Serials, stmt: Stmt): Serials {
    match stmt
    case InsertTransactions(_, _, _) => at.(tx := n.tx)
    case InsertMessages(_, _) => at.(message := n.message)
    case InsertEvents(_, _, _) => at.(event := n.event)
    case _ => at
  }

  /** A read draws no ids, and whether it fails is part of it. */
  function ReadExecuted(a: Attempt): (Attempt, Reply)
    requires a.queue != [] && a.queue[0].stmt.Read?
  {
    var (server, reply) := Exec(a.server, a.queue[0].stmt, false);
    (a.(server := server, queue := a.queue[1..],
        spoiled := a.spoiled || (a.server.session.Open? && reply.Error?)), reply)
  }

  /** The server's half of executing the head of the queue. */
  function Executed(a: Attempt, fault: bool, gap: Serials): (Attempt, Reply)
    requires a.queue != []
  {
    var stmt := a.queue[0].stmt;
    if stmt.Read? then ReadExecuted(a) else
    var n := Skip(a.server.serials, gap);
    var (server, reply) := Exec(a.server.(serials := n), stmt, fault);
    (a.(server := server, queue := a.queue[1..], at := Noted(a.at, n, stmt),
        applied := a.applied || (stmt.Commit? && !fault && a.server.session.Open?)), reply)
  }

  function Expired(a: Attempt, k: nat, withdraw: bool): Attempt
    requires k < |a.queue|
  {
    a.(queue := if withdraw then a.queue[..k] + a.queue[k + 1..]
                else a.queue[k := Entry(a.queue[k].stmt, Nobody)])
  }

  function Step(job: Job, a: Attempt, c: Choice): Attempt {
    match c
    case Execute(fault, gap) =>
      if a.queue == [] then a else
      var (a1, reply) := Executed(a, fault, gap);
      Resume(job, a1, a.queue[0].waiter, a.queue[0].stmt, reply)
    case Expire(k, withdraw) =>
      if k >= |a.queue| || a.queue[k].waiter == Nobody then a else
      Resume(job, Expired(a, k, withdraw), a.queue[k].waiter, a.queue[k].stmt, Error)
    case Continue =>
      if a.main != Running then a
      else if a.rejections != [] then ToRollback(a, a.rejections[0])
      else if a.insert == InsertDone && a.update == UpdateDone then Enqueue(a.(main := AwaitCommit), Commit, Main)
      else a
    case Ask(request) => if CurrentPool(a) then Enqueue(a, Read(request), Reader) else a
  }

  /** `currentPool` is this client: from the start of the transaction body on, unless it was destroyed. */
  predicate CurrentPool(a: Attempt) {
    a.insert != InsertIdle && !a.destroyed
  }

  function Start(base: Tables, n: Serials): Attempt {
    Attempt(Server(base, Idle, n), [Entry(Begin, Main)], AwaitBegin, InsertIdle, UpdateIdle, 0, false, [], false, n,
      false)
  }

  function Run(job: Job, a: Attempt, choices: seq<Choice>): Attempt {
    if choices == [] then a else Step(job, Run(job, a, choices[..|choices| - 1]), choices[|choices| - 1])
  }

  /** The statement needs the lock on the row of the new block or on the checkpoint row. */
  predicate NeedsLock(stmt: Stmt) {
    stmt.InsertBlock? || stmt.UpdateChain?
  }

  /** While another transaction holds those locks, such a statement can only fail or time out. */
  function Blocked(a: Attempt, c: Choice): Choice {
    if c.Execute? && a.queue != [] && NeedsLock(a.queue[0].stmt) then c.(fault := true) else c
  }

  function RunBlocked(job: Job, a: Attempt, choices: seq<Choice>): Attempt {
    if choices == [] then a else
    var b := RunBlocked(job, a, choices[..|choices| - 1]);
    Step(job, b, Blocked(b, choices[|choices| - 1]))
  }

  // -------------------------------------------------------------- the invariant

  /** A child insert that only a transaction on top of `base` could make succeed. */
  ghost predicate Late(base: Tables, stmt: Stmt) {
    ChildInsert(stmt) && ParentMissing(base, stmt)
  }

  ghost predicate EntryOk(job: Job, base: Tables, a: Attempt, e: Entry) {
    match e.stmt
    case Begin => e.waiter == Nobody || (e.waiter == Main && a.main == AwaitBegin)
    case Commit => e.waiter == Nobody || (e.waiter == Main && a.main == AwaitCommit)
    case Rollback => e.waiter == Nobody || (e.waiter == Main && a.main.AwaitRollback?)
    case InsertBlock(height, _, _) =>
      height == job.height && (e.waiter == Nobody || (e.waiter == Inserter && a.insert == AwaitBlock))
    case InsertTransactions(_, _, _) =>
      Late(base, e.stmt) && (e.waiter == Nobody || (e.waiter == Inserter && a.insert == AwaitTransactions))
    case InsertMessages(_, _) =>
      Late(base, e.stmt) && (e.waiter == Nobody || (e.waiter == Inserter && a.insert == AwaitMessages))
    case InsertEvents(_, _, _) =>
      Late(base, e.stmt) && (e.waiter == Nobody || (e.waiter == Inserter && a.insert == AwaitEvents))
    case UpdateChain(_, _) => e.waiter == Nobody || (e.waiter == Updater && a.update == AwaitUpdate)
    case CreateChain(_, _) => false
    case Read(_) => false
  }

  ghost predicate QueueOk(job: Job, base: Tables, a: Attempt) {
    && (forall i :: 0 <= i < |a.queue| ==> EntryOk(job, base, a, a.queue[i]))
    && (forall i, j :: 0 <= i < j < |a.queue| ==> a.queue[i].waiter != Nobody ==>
        a.queue[i].waiter != a.queue[j].waiter)
    && (forall i, j :: 0 <= i < j < |a.queue| ==> a.queue[i].stmt.Rollback? ==> ChildInsert(a.queue[j].stmt))
  }

  ghost predicate OnlyRollbacksFrom(q: seq<Entry>, k: nat) {
    forall j :: k <= j < |q| ==> q[j].stmt.Rollback?
  }

  predicate PastBlock(insert: InsertPc) {
    insert in {AwaitTransactions, AwaitMessages, AwaitEvents, InsertDone}
  }

  ghost predicate Complete(job: Job, base: Tables, n: Serials, a: Attempt) {
    && job.body.Store? && a.insert == InsertDone && a.update == UpdateDone
    && Fits(base, n, job.body.core, a.at, a.server.serials)
  }

  function Target(job: Job, base: Tables, at: Serials): Tables
    requires job.body.Store?
  {
    WithBlock(base, job.chainId, job.body.core, at)
  }

  ghost predicate SessionOk(job: Job, base: Tables, n: Serials, a: Attempt) {
    // nothing is committed before COMMIT takes effect, and the open transaction only adds blocks
    && (!a.applied ==>
          && a.server.committed == base
          && (a.server.session.Open? ==> base.blocks.Keys <= a.server.session.work.blocks.Keys))
    && (a.applied ==>
          && Complete(job, base, n, a)
          && a.server.committed == Target(job, base, a.at) && a.server.session.Idle?
          && OnlyRollbacksFrom(a.queue, 0))
    // statements without a parent check never wait outside a transaction
    && (a.server.session.Idle? ==>
          forall i :: 0 <= i < |a.queue| ==> !a.queue[i].stmt.InsertBlock? && !a.queue[i].stmt.UpdateChain?)
    && (forall i :: 0 <= i < |a.queue| && a.queue[i].stmt.Begin? ==>
          && i == 0 && a.server.session.Idle? && a.insert == InsertIdle && a.update == UpdateIdle
          && OnlyRollbacksFrom(a.queue, 1))
    && (forall i :: 0 <= i < |a.queue| && a.queue[i].stmt.Commit? ==>
          && i == 0 && !a.applied && Complete(job, base, n, a)
          && a.server.session == Open(Target(job, base, a.at))
          && OnlyRollbacksFrom(a.queue, 1))
    && SerialsLeq(n, a.server.serials)
  }

  ghost predicate ControlOk(job: Job, base: Tables, a: Attempt) {
    && (PastBlock(a.insert) ==> job.body.Store? && job.height !in base.blocks)
    && (a.insert == AwaitBlock ==> job.body.Store?)
    && (a.main in {AwaitBegin, AwaitCommit, Resolved} ==> a.rejections == [])
    && (a.main == Resolved ==> a.applied)
    && (a.main in {AwaitBegin, Running, AwaitCommit, Resolved} ==>
          forall i :: 0 <= i < |a.queue| ==> !a.queue[i].stmt.Rollback?)
    && (a.main == Running ==> forall i :: 0 <= i < |a.queue| ==> !Control(a.queue[i].stmt))
    && (a.main.AwaitRollback? || a.main.Thrown? ==>
          a.rejections != [] && a.main.cause == a.rejections[0] && a.main.cause != Rejected(Rollback))
    && (a.main == Running && a.rejections != [] ==> a.rejections[0] != Rejected(Rollback))
    && (a.main.Thrown? && !a.destroyed ==>
          a.server.session.Idle? && forall i :: 0 <= i < |a.queue| ==> ChildInsert(a.queue[i].stmt))
    && a.releases == (if a.main.Resolved? || a.main.Thrown? then 1 else 0)
    && (a.destroyed ==>
          && a.main.Thrown? && a.insert in {InsertIdle, InsertDone, InsertFailed}
          && forall i :: 0 <= i < |a.queue| ==> a.queue[i].waiter == Nobody)
  }

  /** Holds in every state of every interleaving without readers. */
  ghost predicate Safe(job: Job, base: Tables, n: Serials, a: Attempt) {
    QueueOk(job, base, a) && SessionOk(job, base, n, a) && ControlOk(job, base, a)
  }

  ghost predicate JobOk(job: Job) {
    job.body.Store? ==> job.body.core.height == job.height && Linked(job.body.core)
  }

  // ------------------------------------------- without a rejection: the exact state

  function DoneSoFar(a: Attempt): Progress {
    Progress(PastBlock(a.insert), a.insert in {AwaitMessages, AwaitEvents, InsertDone},
             a.insert in {AwaitEvents, InsertDone}, a.insert == InsertDone, a.update == UpdateDone)
  }

  function PendingInsert(core: BlockCore, a: Attempt): seq<Entry> {
    match a.insert
    case AwaitBlock => [Entry(InsertBlock(core.height, core.hash, core.time), Inserter)]
    case AwaitTransactions => [Entry(InsertTransactions(core.transactions, core.time, core.height), Inserter)]
    case AwaitMessages => [Entry(InsertMessages(LinkedMessages(core, a.at.tx), core.height), Inserter)]
    case AwaitEvents => [Entry(InsertEvents(core.events, core.time, core.height), Inserter)]
    case _ => []
  }

  function PendingUpdate(job: Job, a: Attempt): seq<Entry> {
    if a.update == AwaitUpdate then [Entry(UpdateChain(job.chainId, job.height), Updater)] else []
  }

  ghost predicate DrawnOk(core: BlockCore, n: Serials, a: Attempt) {
    && SerialsLeq(n, a.at) && SerialsLeq(a.at, a.server.serials)
    && (DoneSoFar(a).txs ==> a.at.tx + |core.transactions| <= a.server.serials.tx)
    && (DoneSoFar(a).messages ==> a.at.message + |core.messages| <= a.server.serials.message)
    && (DoneSoFar(a).events ==> a.at.event + |core.events| <= a.server.serials.event)
    && (a.insert == AwaitTransactions ==> core.transactions != [])
    && (a.insert == AwaitMessages ==> core.messages != [])
    && (a.insert == AwaitEvents ==> core.events != [])
  }

  /** As long as nothing was rejected the program counters determine queue and transaction exactly. */
  ghost predicate Exact(job: Job, base: Tables, n: Serials, a: Attempt) {
    && !a.destroyed
    && match a.main
       case AwaitBegin =>
         a.insert == InsertIdle && a.update == UpdateIdle && a.queue == [Entry(Begin, Main)] && a.at == n &&
         a.server.session.Idle? && !a.applied
       case Running =>
         && job.body.Store? && !a.applied
         && a.insert !in {InsertIdle, InsertFailed} && a.update in {AwaitUpdate, UpdateDone}
         && var core := job.body.core;
            && DrawnOk(core, n, a)
            && a.queue == (if a.insert == AwaitBlock then PendingInsert(core, a) + PendingUpdate(job, a)
                           else PendingUpdate(job, a) + PendingInsert(core, a))
            && a.server.session == Open(Written(base, job.chainId, core, DoneSoFar(a), a.at))
       case AwaitCommit =>
         && Complete(job, base, n, a) && !a.applied && a.queue == [Entry(Commit, Main)]
         && a.server.session == Open(Target(job, base, a.at))
       case Resolved => a.applied && a.queue == []
       case _ => false
  }

  ghost predicate Inv(job: Job, base: Tables, n: Serials, a: Attempt) {
    Safe(job, base, n, a) && (a.rejections == [] ==> Exact(job, base, n, a))
  }
}
