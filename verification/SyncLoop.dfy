/** Whole runs: start-up, the sync loop, process exits, kills and restarts, over one database
    (src/sync/sync_chain.ts, src/sync/sync_blocks.ts). */
module SyncLoop {
  import opened Prelude
  import opened RawData
  import opened Database
  import opened BlockSync
  import opened CommitProtocol
  import opened SharedClient
  import opened ProtocolTheorems

  /** A statement outside a transaction is answered, or rejected to the client although it may have executed. */
  datatype Answer = Fine | Lost(executed: bool)

  /** The indexer process with the variables of the loop; `Down` means that no loop is running. */
  datatype Process = Down | Up(currentBlock: int, count: nat, errorCount: nat)

  /** A COMMIT in flight on a connection the client has given up: it takes effect later, or never.
      `before` and `at` are history. */
  datatype Doubt = Doubt(tables: Tables, fetch: Fetch, before: Serials, at: Serials)

  /** `leftovers` are the statements that failed attempts left on connections and that have not executed
      yet. `ledger` is history: the replies each committed block was made from, in commit order. */
  datatype World = World(
    db: Tables, serials: Serials, doubt: Option<Doubt>, process: Process,
    ledger: seq<Fetch>, leftovers: seq<Stmt>)

  /** `Boot` is a start of the program: whether the node names a chain, and the answers to the look-up, the
      creation and the reading of the checkpoint row. `Iterate` is one loop iteration: the replies, and the
      interleaving of its attempt; an interleaving that stops before the attempt has ended means that the
      process dies there. `Settle` decides the COMMIT in doubt. `Leftover` executes one of the leftover
      statements, outside any transaction. */
  datatype Input =
    | Boot(nodeKnown: bool, lookup: Answer, create: Answer, read: Answer)
    | Iterate(fetch: Fetch, choices: seq<Choice>)
    | Kill
    | Settle(committed: bool)
    | Leftover(which: nat, fault: bool)

  const MAX_ATTEMPTS: nat := 20
  const MAX_ERRORS: nat := 3

  /** Where syncing starts for a stored checkpoint. */
  function FirstBlock(checkpoint: int): int {
    var currentBlock := if checkpoint == 0 then 1 else checkpoint;
    if currentBlock != 1 then currentBlock + 1 else currentBlock
  }

  function WithChain(t: Tables, chainId: string): Tables {
    if chainId in t.chains then t else t.(chains := t.chains[chainId := 1])
  }

  function BootSpec(chainId: string, w: World, i: Input): World
    requires i.Boot?
  {
    if w.process.Up? || !i.nodeKnown || i.lookup.Lost? then w
    else if chainId !in w.db.chains && i.create == Lost(false) then w
    else
      var w1 := w.(db := WithChain(w.db, chainId));
      if (chainId !in w.db.chains && i.create.Lost?) || i.read.Lost? then w1
      else w1.(process := Up(FirstBlock(w1.db.chains[chainId]), 0, 0))
  }

  /** The catch block of the loop. */
  function AfterError(p: Process): Process
    requires p.Up?
  {
    if p.errorCount + 1 > MAX_ERRORS then Down else Up(p.currentBlock, 0, p.errorCount + 1)
  }

  /** The branch for missing replies. */
  function AfterRetry(p: Process): Process
    requires p.Up?
  {
    if p.count + 1 > MAX_ATTEMPTS then AfterError(p) else p.(count := p.count + 1)
  }

  function AfterAttempt(p: Process, a: Attempt): Process
    requires p.Up?
  {
    if a.main.Resolved? then Up(p.currentBlock + 1, 0, 0)
    else if a.main.Thrown? then AfterError(p)
    else Down
  }

  function AfterRun(w: World, f: Fetch, a: Attempt): World
    requires w.process.Up?
  {
    var doubt := match InDoubt(a) case Some(t) => Some(Doubt(t, f, w.serials, a.at)) case None => w.doubt;
    World(a.server.committed, a.server.serials, doubt, AfterAttempt(w.process, a),
          if a.applied then w.ledger + [f] else w.ledger, w.leftovers + Abandoned(a))
  }

  /** An attempt under a given interleaving. A COMMIT in doubt still holds the locks of its transaction: on
      the row of its block and on the checkpoint row. */
  function AttemptIn(w: World, job: Job, choices: seq<Choice>): Attempt {
    if w.doubt.Some? then RunBlocked(job, Start(w.db, w.serials), choices)
    else Run(job, Start(w.db, w.serials), choices)
  }

  function IterateSpec(reg: Registry, chainId: string, w: World, f: Fetch, choices: seq<Choice>): World {
    if w.process.Down? then w else
    match PlanSpec(reg, chainId, f)
    case Retry => w.(process := AfterRetry(w.process))
    case AbciBehind => w
    case Malformed => w.(process := AfterError(w.process))
    case Proceed(job) => AfterRun(w, f, AttemptIn(w, job, choices))
  }

  function SettleSpec(w: World, committed: bool): World {
    match w.doubt
    case None => w
    case Some(d) => if committed then w.(db := d.tables, doubt := None, ledger := w.ledger + [d.fetch])
        else w.(doubt := None)
  }

  function Next(reg: Registry, chainId: string, w: World, i: Input): World {
    match i
    case Boot(_, _, _, _) => BootSpec(chainId, w, i)
    case Iterate(f, choices) => IterateSpec(reg, chainId, w, f, choices)
    case Kill => w.(process := Down)
    case Settle(committed) => SettleSpec(w, committed)
    case Leftover(which, fault) =>
      if which >= |w.leftovers| then w else
      var server := Exec(Server(w.db, Idle, w.serials), w.leftovers[which], fault).0;
      w.(db := server.committed, serials := server.serials,
         leftovers := w.leftovers[..which] + w.leftovers[which + 1..])
  }

  function Evolve(reg: Registry, chainId: string, w: World, inputs: seq<Input>): World {
    if inputs == [] then w
    else Next(reg, chainId, Evolve(reg, chainId, w, inputs[..|inputs| - 1]), inputs[|inputs| - 1])
  }

  /** What the node and the two-second sleep promise: the node answers a request for a height with a block of
      that height, and has fewer than 2^31 blocks; a leftover insert of transactions or events executes before
      its height is committed. Nothing is promised about leftover message inserts. */
  ghost predicate NodeHonest(w: World, i: Input) {
    && (i.Iterate? && w.process.Up? && i.fetch.block.Some? && i.fetch.block.value.header.Some? ==>
          i.fetch.block.value.header.value.height == w.process.currentBlock < TWO31)
    && (i.Leftover? && i.which < |w.leftovers| ==>
          var stmt := w.leftovers[i.which];
          stmt.InsertTransactions? || stmt.InsertEvents? ==> stmt.height !in w.db.blocks)
  }

  /** What the environment promises, readers included: there may be any number of them, and the server may
      refuse them, but not when the block and its checkpoint are written and COMMIT is still to come. */
  ghost predicate Honest(reg: Registry, chainId: string, w: World, i: Input) {
    && NodeHonest(w, i)
    && (i.Iterate? && w.process.Up? && w.doubt.None? && PlanSpec(reg, chainId, i.fetch).Proceed? ==>
          Spared(PlanSpec(reg, chainId, i.fetch).job, w.db, w.serials, i.choices))
  }

  /** It is enough for readers that share the client of a transaction to ask for an integer in the range of
      the column and to be answered. */
  lemma AnsweredHonest(reg: Registry, chainId: string, w: World, i: Input)
    requires NodeHonest(w, i) && (i.Iterate? ==> Answered(i.choices))
    ensures Honest(reg, chainId, w, i)
  {
    if i.Iterate? && PlanSpec(reg, chainId, i.fetch).Proceed? {
      AnsweredSpared(PlanSpec(reg, chainId, i.fetch).job, w.db, w.serials, i.choices);
    }
  }

  ghost predicate HonestRun(reg: Registry, chainId: string, w: World, inputs: seq<Input>) {
    inputs == [] ||
    (HonestRun(reg, chainId, w, inputs[..|inputs| - 1]) &&
     Honest(reg, chainId, Evolve(reg, chainId, w, inputs[..|inputs| - 1]), inputs[|inputs| - 1]))
  }

  /** A migrated database without a single row, and no process. */
  ghost predicate Fresh(w: World) {
    w.db == Tables(map[], map[], [], [], []) && w.doubt.None? && w.process.Down? && w.ledger == [] && w.leftovers == []
  }
}
