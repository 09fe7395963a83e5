/** What every run of the indexer guarantees, where it may stop making progress, and what readers see. */
module SyncTheorems {
  import opened Prelude
  import opened RawData
  import opened FinalizeSplit
  import opened Database
  import opened BlockSync
  import opened BlockStore
  import opened RowMeaning
  import opened ReplyMeaning
  import opened BlockQuery
  import opened CommitProtocol
  import opened SharedClient
  import opened ProtocolProofs
  import opened ProtocolTheorems
  import opened ReaderViews
  import opened SyncLoop
  import opened SyncProofs

  // ------------------------------------------------------------------- safety

  /** Over every run with any mix of missing replies, faults, lost answers, kills, restarts and readers, as long
      as no read is refused between the last statement of the tasks and COMMIT: the committed heights are exactly
      1 to n and the checkpoint is max(1, n). */
  lemma Safety(reg: Registry, chainId: string, w: World, inputs: seq<Input>)
    requires Fresh(w) && HonestRun(reg, chainId, w, inputs)
    ensures var v := Evolve(reg, chainId, w, inputs);
            && (forall h :: h in v.db.blocks <==> 1 <= h <= |v.ledger|)
            && (chainId in v.db.chains ==> v.db.chains[chainId] == if |v.ledger| == 0 then 1 else |v.ledger|)
            && (chainId !in v.db.chains ==> v.ledger == [] && v.process.Down?)
            && (v.process.Up? ==> 1 <= v.process.currentBlock <= |v.ledger| + 1)
  {
    FreshOk(reg, chainId, w);
    EvolveKeeps(reg, chainId, w, inputs);
  }

  /** The rows of other chains are left alone. */
  ghost predicate OtherChainsSame(chainId: string, t: Tables, u: Tables) {
    && t.chains.Keys - {chainId} == u.chains.Keys - {chainId}
    && forall c :: c in t.chains && c != chainId ==> c in u.chains && u.chains[c] == t.chains[c]
  }

  lemma IterateGrows(reg: Registry, chainId: string, w: World, i: Input)
    requires WorldOk(reg, chainId, w) && Honest(reg, chainId, w, i) && i.Iterate?
    ensures w.ledger <= Next(reg, chainId, w, i).ledger
    ensures chainId in w.db.chains ==> chainId in Next(reg, chainId, w, i).db.chains
    ensures OtherChainsSame(chainId, w.db, Next(reg, chainId, w, i).db)
  {
    if w.process.Up? && PlanSpec(reg, chainId, i.fetch).Proceed? {
      CoreOfPlan(reg, chainId, i.fetch);
      AttemptedIn(w, PlanSpec(reg, chainId, i.fetch).job, i.choices);
    }
  }

  lemma NextGrows(reg: Registry, chainId: string, w: World, i: Input)
    requires WorldOk(reg, chainId, w) && Honest(reg, chainId, w, i)
    ensures w.ledger <= Next(reg, chainId, w, i).ledger
    ensures chainId in w.db.chains ==> chainId in Next(reg, chainId, w, i).db.chains
    ensures OtherChainsSame(chainId, w.db, Next(reg, chainId, w, i).db)
  {
    match i
    case Iterate(_, _) => IterateGrows(reg, chainId, w, i);
    case Leftover(which, fault) => LeftoverKeeps(reg, chainId, w, which, fault);
    case _ =>
  }

  /** Committed blocks are never taken back or replaced, and the checkpoint never decreases. */
  lemma {:induction false} NeverDecreases(reg: Registry, chainId: string, w: World, inputs: seq<Input>)
    requires WorldOk(reg, chainId, w) && HonestRun(reg, chainId, w, inputs)
    ensures var v := Evolve(reg, chainId, w, inputs);
            && w.ledger <= v.ledger && OtherChainsSame(chainId, w.db, v.db)
            && (chainId in w.db.chains ==> chainId in v.db.chains && w.db.chains[chainId] <= v.db.chains[chainId])
  {
    if inputs == [] {
    } else {
      var front := inputs[..|inputs| - 1];
      NeverDecreases(reg, chainId, w, front);
      var u := Evolve(reg, chainId, w, front);
      EvolveKeeps(reg, chainId, w, front);
      NextGrows(reg, chainId, u, inputs[|inputs| - 1]);
      NextKeeps(reg, chainId, u, inputs[|inputs| - 1]);
    }
  }

  // -------------------------------------------------------------- end to end

  ghost predicate Received(inputs: seq<Input>, f: Fetch) {
    exists j :: 0 <= j < |inputs| && inputs[j].Iterate? && inputs[j].fetch == f
  }

  lemma {:induction false} Provenance(reg: Registry, chainId: string, w: World, inputs: seq<Input>)
    requires Fresh(w)
    ensures var v := Evolve(reg, chainId, w, inputs);
            && (forall k :: 0 <= k < |v.ledger| ==> Received(inputs, v.ledger[k]))
            && (v.doubt.Some? ==> Received(inputs, v.doubt.value.fetch))
  {
    if inputs == [] {
    } else {
      var front := inputs[..|inputs| - 1];
      Provenance(reg, chainId, w, front);
      var u, v := Evolve(reg, chainId, w, front), Evolve(reg, chainId, w, inputs);
      forall f | Received(front, f) ensures Received(inputs, f) {
        var j :| 0 <= j < |front| && front[j].Iterate? && front[j].fetch == f;
        assert inputs[j] == front[j];
      }
      assert inputs[|inputs| - 1].Iterate? ==> Received(inputs, inputs[|inputs| - 1].fetch);
    }
  }

  lemma CoreMeaning(reg: Registry, chainId: string, f: Fetch)
    requires CoreOf(reg, chainId, f).Some?
    ensures FromReplies(reg, f, CoreOf(reg, chainId, f).value)
  {
    StoreMeaning(reg, chainId, f);
  }

  /** End to end: for every committed height there is one block that is, field by field and place by place, the
      block of replies the node really sent for it; every column of its rows is stored; and reading the height
      gives that block, field by field and in order. Any other height reads as null. */
  lemma EndToEnd(reg: Registry, chainId: string, w: World, inputs: seq<Input>, height: int)
    requires Fresh(w) && HonestRun(reg, chainId, w, inputs)
    ensures var v := Evolve(reg, chainId, w, inputs);
            if 1 <= height <= |v.ledger| then
              var f := v.ledger[height - 1];
              && Received(inputs, f)
              && CoreOf(reg, chainId, f).Some?
              && var core := CoreOf(reg, chainId, f).value;
                 && core.height == height && FromReplies(reg, f, core)
                 && (exists o :: RowsStored(v.db, core, o))
                 && GetCoreBlock(v.db, v.db, height).Some?
                 && Shows(core, GetCoreBlock(v.db, v.db, height).value)
            else GetCoreBlock(v.db, v.db, height) == None
  {
    FreshOk(reg, chainId, w);
    EvolveKeeps(reg, chainId, w, inputs);
    Provenance(reg, chainId, w, inputs);
    var v := Evolve(reg, chainId, w, inputs);
    if 1 <= height <= |v.ledger| {
      assert EntryHeld(reg, chainId, v.db, v.ledger[height - 1], height);
      var core := CoreOf(reg, chainId, v.ledger[height - 1]).value;
      ReadBack(v.db, core);
      SpecViewShows(core);
      CoreMeaning(reg, chainId, v.ledger[height - 1]);
    }
  }

  /** What a query may see in a world: the committed tables, or the open transaction of an attempt that is
      under way, whose client it then shares. */
  ghost predicate Visible(reg: Registry, chainId: string, w: World, t: Tables) {
    || t == w.db
    || exists f, choices :: Honest(reg, chainId, w, Iterate(f, choices)) && UnderWay(reg, chainId, w, f, choices, t)
  }

  ghost predicate UnderWay(reg: Registry, chainId: string, w: World, f: Fetch, choices: seq<Choice>, t: Tables) {
    && w.process.Up? && PlanSpec(reg, chainId, f).Proceed?
    && var s := AttemptIn(w, PlanSpec(reg, chainId, f).job, choices).server;
       t == s.committed || s.session == Open(t)
  }

  lemma UnderWayHolds(reg: Registry, chainId: string, w: World, f: Fetch, choices: seq<Choice>, t: Tables,
                      kept: BlockCore)
    requires Consistent(w.db, w.serials) && Holds(w.db, kept) && UnderWay(reg, chainId, w, f, choices, t)
    ensures Holds(t, kept)
  {
    var job := PlanSpec(reg, chainId, f).job;
    CoreOfPlan(reg, chainId, f);
    var same := choices;
    if w.doubt.Some? { same := BarredRun(job, w.db, w.serials, choices); }
    StoredBlocksVisible(job, w.db, w.serials, same, kept);
  }

  lemma VisibleHolds(reg: Registry, chainId: string, w: World, t: Tables, height: int)
    requires WorldOk(reg, chainId, w) && Visible(reg, chainId, w, t) && 1 <= height <= |w.ledger|
    ensures CoreOf(reg, chainId, w.ledger[height - 1]).Some?
    ensures var core := CoreOf(reg, chainId, w.ledger[height - 1]).value; core.height == height && Holds(t, core)
  {
    assert EntryHeld(reg, chainId, w.db, w.ledger[height - 1], height);
    if t != w.db {
      var f, choices :| Honest(reg, chainId, w, Iterate(f, choices)) && UnderWay(reg, chainId, w, f, choices, t);
      UnderWayHolds(reg, chainId, w, f, choices, t, CoreOf(reg, chainId, w.ledger[height - 1]).value);
    }
  }

  /** Reads of stored blocks are whole, although their two queries are not atomic and may share the client of a
      transaction: with any steps of a run in between, and with each query on the committed tables or in the
      open transaction of its own moment, the answer is the complete block. A height that the first query does
      not find gives null. */
  lemma ReadsAreWhole(reg: Registry, chainId: string, w: World, between: seq<Input>, height: int,
                      first: Tables, second: Tables)
    requires WorldOk(reg, chainId, w) && HonestRun(reg, chainId, w, between)
    requires Visible(reg, chainId, w, first) && Visible(reg, chainId, Evolve(reg, chainId, w, between), second)
    ensures 1 <= height <= |w.ledger| ==>
              && CoreOf(reg, chainId, w.ledger[height - 1]).Some?
              && GetCoreBlock(first, second, height).Some?
              && Shows(CoreOf(reg, chainId, w.ledger[height - 1]).value, GetCoreBlock(first, second, height).value)
    ensures first == w.db && !(1 <= height <= |w.ledger|) ==> GetCoreBlock(first, second, height) == None
  {
    EvolveKeeps(reg, chainId, w, between);
    NeverDecreases(reg, chainId, w, between);
    var v := Evolve(reg, chainId, w, between);
    if 1 <= height <= |w.ledger| {
      assert v.ledger[height - 1] == w.ledger[height - 1];
      VisibleHolds(reg, chainId, w, first, height);
      VisibleHolds(reg, chainId, v, second, height);
      SpecViewShows(CoreOf(reg, chainId, w.ledger[height - 1]).value);
    }
  }

  // ------------------------------------------------------------- unique hashes

  ghost predicate HashesUnique(t: Tables) {
    forall g, h :: g in t.blocks && h in t.blocks && t.blocks[g].hash == t.blocks[h].hash ==> g == h
  }

  ghost predicate ServerUnique(s: Server) {
    HashesUnique(s.committed) && (s.session.Open? ==> HashesUnique(s.session.work))
  }

  lemma ChangeUnique(t: Tables, n: Serials, stmt: Stmt)
    requires HashesUnique(t) && !Control(stmt)
    ensures var r := Change(t, n, stmt); r.Some? ==> HashesUnique(r.value)
  {}

  lemma ExecUnique(s: Server, stmt: Stmt, fault: bool)
    requires ServerUnique(s)
    ensures ServerUnique(Exec(s, stmt, fault).0)
  {
    if !Control(stmt) {
      ChangeUnique(s.committed, s.serials, stmt);
      if s.session.Open? { ChangeUnique(s.session.work, s.serials, stmt); }
    }
  }

  lemma ExecutedUnique(job: Job, a: Attempt, fault: bool, gap: Serials)
    requires ServerUnique(a.server) && a.queue != []
    ensures ServerUnique(Step(job, a, Execute(fault, gap)).server)
  {
    var stmt := a.queue[0].stmt;
    var (a1, reply) := Executed(a, fault, gap);
    if stmt.Read? {
      ExecUnique(a.server, stmt, false);
    } else {
      ExecUnique(a.server.(serials := Skip(a.server.serials, gap)), stmt, fault);
    }
    ResumeServer(job, a1, a.queue[0].waiter, stmt, reply);
  }

  lemma StepUnique(job: Job, a: Attempt, c: Choice)
    requires ServerUnique(a.server)
    ensures ServerUnique(Step(job, a, c).server)
  {
    match c
    case Execute(fault, gap) => if a.queue != [] { ExecutedUnique(job, a, fault, gap); }
    case Expire(k, withdraw) =>
      if k < |a.queue| && a.queue[k].waiter != Nobody {
        ResumeServer(job, Expired(a, k, withdraw), a.queue[k].waiter, a.queue[k].stmt, Error);
      }
    case Continue =>
    case Ask(_) =>
  }

  lemma {:induction false} RunUnique(job: Job, a: Attempt, choices: seq<Choice>)
    requires ServerUnique(a.server)
    ensures ServerUnique(Run(job, a, choices).server) && ServerUnique(RunBlocked(job, a, choices).server)
  {
    if choices == [] {
    } else {
      var front, c := choices[..|choices| - 1], choices[|choices| - 1];
      RunUnique(job, a, front);
      StepUnique(job, Run(job, a, front), c);
      StepUnique(job, RunBlocked(job, a, front), Blocked(RunBlocked(job, a, front), c));
    }
  }

  ghost predicate WorldUnique(w: World) {
    HashesUnique(w.db) && (w.doubt.Some? ==> HashesUnique(w.doubt.value.tables))
  }

  lemma NextUnique(reg: Registry, chainId: string, w: World, i: Input)
    requires WorldUnique(w)
    ensures WorldUnique(Next(reg, chainId, w, i))
  {
    if i.Leftover? && i.which < |w.leftovers| {
      ExecUnique(Server(w.db, Idle, w.serials), w.leftovers[i.which], i.fault);
    }
    if i.Iterate? && w.process.Up? && PlanSpec(reg, chainId, i.fetch).Proceed? {
      RunUnique(PlanSpec(reg, chainId, i.fetch).job, Start(w.db, w.serials), i.choices);
    }
  }

  /** Over every run, whatever the node sends, no two stored blocks have the same hash. */
  lemma {:induction false} UniqueHashes(reg: Registry, chainId: string, w: World, inputs: seq<Input>)
    requires WorldUnique(w)
    ensures WorldUnique(Evolve(reg, chainId, w, inputs))
  {
    if inputs == [] {
    } else {
      UniqueHashes(reg, chainId, w, inputs[..|inputs| - 1]);
      NextUnique(reg, chainId, Evolve(reg, chainId, w, inputs[..|inputs| - 1]), inputs[|inputs| - 1]);
    }
  }

  // ---------------------------------------------------------------- single steps

  /** What becomes of the loop variables when an iteration fails. */
  ghost predicate FailedOnce(p: Process, q: Process)
    requires p.Up?
  {
    q == if p.errorCount < 3 then Up(p.currentBlock, 0, p.errorCount + 1) else Down
  }

  /** One iteration, in terms of the replies: a missing reply is counted, and the 21st in a row is an error; with
      transactions in the block but none in the reply for them nothing whatever changes; a block without a header
      is an error; otherwise a stored block moves the loop on, a failed attempt is an error, and an interrupted
      one ends the process. */
  lemma IterationMeaning(reg: Registry, chainId: string, w: World, f: Fetch, choices: seq<Choice>)
    requires w.process.Up?
    ensures var v := Next(reg, chainId, w, Iterate(f, choices));
            var p := w.process;
            if f.block.None? || f.txs.None? || f.results.None? then
              && v == w.(process := v.process)
              && if p.count < 20 then v.process == Up(p.currentBlock, p.count + 1, p.errorCount)
                 else FailedOnce(p, v.process)
            else if f.block.value.txCount > 0 && f.txs.value.txCount == 0 then v == w
            else if f.block.value.header.None? then v == w.(process := v.process) && FailedOnce(p, v.process)
            else
              && PlanSpec(reg, chainId, f).Proceed?
              && var a := AttemptIn(w, PlanSpec(reg, chainId, f).job, choices);
                 && v.db == a.server.committed
                 && (a.main.Resolved? ==> v.process == Up(p.currentBlock + 1, 0, 0))
                 && (a.main.Thrown? ==> FailedOnce(p, v.process))
                 && (!a.main.Resolved? && !a.main.Thrown? ==> v.process == Down)
  {
    PlanMeaning(reg, chainId, f);
  }

  /** One start-up, in terms of its answers: when the loop starts and where, and when the row of the chain is made,
      with checkpoint 1. */
  lemma BootMeaning(reg: Registry, chainId: string, w: World, i: Input)
    requires i.Boot? && w.process.Down?
    ensures var v := Next(reg, chainId, w, i);
            var asked := i.nodeKnown && i.lookup.Fine?;
            var made := asked && chainId !in w.db.chains && i.create != Lost(false);
            && v == w.(db := v.db, process := v.process)
            && v.db == w.db.(chains := if made then w.db.chains[chainId := 1] else w.db.chains)
            && (v.process.Up? <==> asked && (chainId in w.db.chains || i.create.Fine?) && i.read.Fine?)
            && (v.process.Up? ==>
                  var c := v.db.chains[chainId];
                  v.process == Up(if c == 0 || c == 1 then 1 else c + 1, 0, 0))
  {}

  // ------------------------------------------------------------------ resuming

  const GOOD_BOOT := Boot(true, Fine, Fine, Fine)

  /** A start-up whose statements are answered resumes at the first missing height for every n except 1,
      where the checkpoint cannot be told from that of a fresh chain and block 1 is taken again. */
  lemma ResumeExact(reg: Registry, chainId: string, w: World)
    requires WorldOk(reg, chainId, w) && w.process.Down?
    ensures var p := Next(reg, chainId, w, GOOD_BOOT).process;
            && p.Up? && p.count == 0 && p.errorCount == 0
            && (p.currentBlock == |w.ledger| + 1 <==> |w.ledger| != 1)
            && (|w.ledger| == 1 ==> p.currentBlock == 1)
  {}

  // --------------------------------------------------------- no further commits

  /** The process asks for a height that is committed already. */
  ghost predicate Behind(w: World) {
    w.doubt.None? && (w.process.Up? ==> w.process.currentBlock <= |w.ledger|)
  }

  lemma BehindStep(reg: Registry, chainId: string, w: World, i: Input)
    requires WorldOk(reg, chainId, w) && Honest(reg, chainId, w, i) && Behind(w) && !i.Boot?
    ensures var v := Next(reg, chainId, w, i);
            && v.db == w.db && v.ledger == w.ledger && Behind(v)
            && (v.process.Up? ==> w.process.Up? && v.process.currentBlock == w.process.currentBlock)
            && !Advances(reg, chainId, w, i)
  {
    if i.Leftover? { LeftoverKeeps(reg, chainId, w, i.which, i.fault); }
    if i.Iterate? && w.process.Up? && PlanSpec(reg, chainId, i.fetch).Proceed? {
      CoreOfPlan(reg, chainId, i.fetch);
      HeightInStep(reg, chainId, w, i.fetch, i.choices);
      HopelessAttempt(PlanSpec(reg, chainId, i.fetch).job, w.db, w.serials, i.choices);
      AllOrNothing(PlanSpec(reg, chainId, i.fetch).job, w.db, w.serials, i.choices);
    }
  }

  /** An ambiguous commit, executed but reported as failed, leaves the process asking for the committed
      height again. */
  lemma AmbiguousCommit(reg: Registry, chainId: string, w: World, f: Fetch, choices: seq<Choice>)
    requires WorldOk(reg, chainId, w) && w.process.Up? && w.doubt.None? && Honest(reg, chainId, w, Iterate(f, choices))
    requires PlanSpec(reg, chainId, f).Proceed?
    requires var a := Run(PlanSpec(reg, chainId, f).job, Start(w.db, w.serials), choices);
             a.applied && a.main != Resolved
    ensures var v := Next(reg, chainId, w, Iterate(f, choices));
            v.ledger == w.ledger + [f] && Behind(v) && (v.process.Up? ==> v.process.currentBlock == |v.ledger|)
  {
    NextKeeps(reg, chainId, w, Iterate(f, choices));
    CoreOfPlan(reg, chainId, f);
    HeightInStep(reg, chainId, w, f, choices);
    AllOrNothing(PlanSpec(reg, chainId, f).job, w.db, w.serials, choices);
  }

  lemma DoubtStep(reg: Registry, chainId: string, w: World, i: Input)
    requires WorldOk(reg, chainId, w) && Honest(reg, chainId, w, i) && w.doubt.Some? && !i.Settle?
    ensures var v := Next(reg, chainId, w, i);
            v.db == w.db && v.ledger == w.ledger && v.doubt == w.doubt && !Advances(reg, chainId, w, i)
  {
    if i.Leftover? { LeftoverKeeps(reg, chainId, w, i.which, i.fault); }
    if i.Iterate? && w.process.Up? && PlanSpec(reg, chainId, i.fetch).Proceed? {
      CoreOfPlan(reg, chainId, i.fetch);
      AttemptedIn(w, PlanSpec(reg, chainId, i.fetch).job, i.choices);
    }
  }

  /** A commit still in doubt when the client gives up: whatever the run does, restarts included, nothing
      changes and no commit is reported before it is settled; settled as committed it stores its own block
      and leaves the process behind, settled as lost it leaves everything as it was. */
  lemma {:induction false} CommitInDoubt(reg: Registry, chainId: string, w: World, inputs: seq<Input>)
    requires WorldOk(reg, chainId, w) && HonestRun(reg, chainId, w, inputs) && w.doubt.Some?
    requires forall k :: 0 <= k < |inputs| ==> !inputs[k].Settle?
    ensures var v := Evolve(reg, chainId, w, inputs);
            && v.db == w.db && v.ledger == w.ledger && v.doubt == w.doubt && Unadvanced(reg, chainId, w, inputs)
            && Next(reg, chainId, v, Settle(false)) == v.(doubt := None)
            && var stored := Next(reg, chainId, v, Settle(true));
               && stored.ledger == w.ledger + [w.doubt.value.fetch] && Behind(stored)
               && stored.db == w.doubt.value.tables
  {
    EvolveKeeps(reg, chainId, w, inputs);
    if inputs == [] {
    } else {
      var front := inputs[..|inputs| - 1];
      CommitInDoubt(reg, chainId, w, front);
      EvolveKeeps(reg, chainId, w, front);
      DoubtStep(reg, chainId, Evolve(reg, chainId, w, front), inputs[|inputs| - 1]);
    }
  }

  /** After that nothing the process does changes the database until it is started again. */
  lemma {:induction false} BehindForever(reg: Registry, chainId: string, w: World, inputs: seq<Input>)
    requires WorldOk(reg, chainId, w) && HonestRun(reg, chainId, w, inputs) && Behind(w)
    requires forall k :: 0 <= k < |inputs| ==> !inputs[k].Boot?
    ensures var v := Evolve(reg, chainId, w, inputs);
            v.db == w.db && v.ledger == w.ledger && Behind(v) && Unadvanced(reg, chainId, w, inputs)
  {
    if inputs == [] {
    } else {
      var front := inputs[..|inputs| - 1];
      BehindForever(reg, chainId, w, front);
      EvolveKeeps(reg, chainId, w, front);
      BehindStep(reg, chainId, Evolve(reg, chainId, w, front), inputs[|inputs| - 1]);
    }
  }

  /** The ambiguous commit is harmless: without a restart nothing changes and 84 counted iterations end
      the loop, and a restart resumes at the next height for every n but 1. */
  lemma AmbiguousCommitHarmless(reg: Registry, chainId: string, w: World, inputs: seq<Input>)
    requires WorldOk(reg, chainId, w) && HonestRun(reg, chainId, w, inputs) && Behind(w)
    requires forall k :: 0 <= k < |inputs| ==> !inputs[k].Boot?
    ensures var v := Evolve(reg, chainId, w, inputs);
            && v.db == w.db
            && (Charged(reg, chainId, w, inputs) >= 84 ==>
                  && v.process.Down?
                  && (|w.ledger| != 1 ==> Next(reg, chainId, v, GOOD_BOOT).process == Up(|w.ledger| + 1, 0, 0)))
  {
    BehindForever(reg, chainId, w, inputs);
    EvolveKeeps(reg, chainId, w, inputs);
    RetryBound(reg, chainId, w, inputs);
    var v := Evolve(reg, chainId, w, inputs);
    if v.process.Down? { ResumeExact(reg, chainId, v); }
  }

  // ------------------------------------------------------------------ livelock

  /** One block is committed and the process, if any, asks for block 1. */
  ghost predicate Stuck(w: World) {
    |w.ledger| == 1 && w.doubt.None? && (w.process.Up? ==> w.process.currentBlock == 1)
  }

  /** From there no run whatever, restarts included, commits anything again. */
  lemma {:induction false} StuckForever(reg: Registry, chainId: string, w: World, inputs: seq<Input>)
    requires WorldOk(reg, chainId, w) && HonestRun(reg, chainId, w, inputs) && Stuck(w)
    ensures var v := Evolve(reg, chainId, w, inputs);
            v.db == w.db && v.ledger == w.ledger && Stuck(v)
  {
    if inputs == [] {
    } else {
      var front, i := inputs[..|inputs| - 1], inputs[|inputs| - 1];
      StuckForever(reg, chainId, w, front);
      EvolveKeeps(reg, chainId, w, front);
      var u := Evolve(reg, chainId, w, front);
      if i.Boot? {
        NextKeeps(reg, chainId, u, i);
      } else {
        BehindStep(reg, chainId, u, i);
      }
    }
  }

  /** Replies for a block without transactions and events. */
  function PlainFetch(height: int, hash: string): Fetch {
    Fetch(Some(BlockReply(Some(Header(height, Some(0))), Some(Some(hash)), 0)), Some(TxsReply(0, [])),
          Some(BlockResults([], [], [])))
  }

  lemma PlainPlan(reg: Registry, chainId: string, height: int, hash: string)
    requires 1 <= height < TWO31
    ensures PlanSpec(reg, chainId, PlainFetch(height, hash)) ==
            Proceed(Job(chainId, height, Store(BlockCore(height, hash, 0, [], [], []))))
  {
    LowWordExact(height);
  }

  lemma {:induction false} LengthBound(hashes: set<string>) returns (bound: nat)
    ensures forall s :: s in hashes ==> |s| < bound
  {
    if hashes == {} {
      bound := 0;
    } else {
      var s :| s in hashes;
      var rest := LengthBound(hashes - {s});
      bound := if rest > |s| then rest else |s| + 1;
    }
  }

  lemma NewHash(t: Tables) returns (hash: string)
    ensures !HashTaken(t.blocks, hash)
  {
    var bound := LengthBound(set h | h in t.blocks :: t.blocks[h].hash);
    hash := seq(bound, _ => 'a');
  }

  /** The process asks for the first missing height. */
  ghost predicate Ahead(w: World) {
    w.process.Up? && w.doubt.None? && w.process.currentBlock == |w.ledger| + 1 < TWO31
  }

  /** The process asks for a height that is not stored. */
  ghost predicate Asking(w: World) {
    && Consistent(w.db, w.serials) && w.process.Up? && w.doubt.None?
    && 1 <= w.process.currentBlock < TWO31 && w.process.currentBlock !in w.db.blocks
  }

  /** The node can answer it with a block that can be stored. */
  lemma AskingJob(reg: Registry, chainId: string, w: World) returns (f: Fetch, job: Job)
    requires Asking(w)
    ensures PlanSpec(reg, chainId, f) == Proceed(job) && JobOk(job) && Storable(job, w.db)
    ensures job.chainId == chainId && job.height == w.process.currentBlock
    ensures forall choices :: NodeHonest(w, Iterate(f, choices))
  {
    var height := w.process.currentBlock;
    var hash := NewHash(w.db);
    PlainPlan(reg, chainId, height, hash);
    f, job := PlainFetch(height, hash), Job(chainId, height, Store(BlockCore(height, hash, 0, [], [], [])));
  }

  /** Then the process can commit it and go on. */
  lemma AheadCommits(reg: Registry, chainId: string, w: World) returns (i: Input)
    requires WorldOk(reg, chainId, w) && Ahead(w)
    ensures Honest(reg, chainId, w, i)
    ensures var v := Next(reg, chainId, w, i);
            |v.ledger| == |w.ledger| + 1 && v.doubt.None? && v.process == Up(|v.ledger| + 1, 0, 0)
  {
    var f, job := AskingJob(reg, chainId, w);
    var choices := SmoothCommits(job, w.db, w.serials);
    AllOrNothing(job, w.db, w.serials, choices);
    i := Iterate(f, choices);
    AnsweredHonest(reg, chainId, w, i);
  }

  ghost predicate CanCommit(reg: Registry, chainId: string, w: World) {
    exists inputs :: HonestRun(reg, chainId, w, inputs) && |Evolve(reg, chainId, w, inputs).ledger| > |w.ledger|
  }

  lemma {:induction false} HonestConcat(reg: Registry, chainId: string, w: World, a: seq<Input>, b: seq<Input>)
    requires HonestRun(reg, chainId, w, a) && HonestRun(reg, chainId, Evolve(reg, chainId, w, a), b)
    ensures HonestRun(reg, chainId, w, a + b)
    ensures Evolve(reg, chainId, w, a + b) == Evolve(reg, chainId, Evolve(reg, chainId, w, a), b)
  {
    if b == [] {
      assert a + b == a;
    } else {
      assert (a + b)[..|a + b| - 1] == a + b[..|b| - 1];
      HonestConcat(reg, chainId, w, a, b[..|b| - 1]);
    }
  }

  lemma OneStep(reg: Registry, chainId: string, w: World, i: Input)
    requires Honest(reg, chainId, w, i)
    ensures HonestRun(reg, chainId, w, [i]) && Evolve(reg, chainId, w, [i]) == Next(reg, chainId, w, i)
  {
    var one := [i];
    assert one[..|one| - 1] == [] && one[|one| - 1] == i;
    assert HonestRun(reg, chainId, w, []) && Evolve(reg, chainId, w, []) == w;
  }

  /** A stretch of a run that does not lose the ability to commit. */
  lemma CanCommitAfter(reg: Registry, chainId: string, w: World, first: seq<Input>, u: World)
    requires HonestRun(reg, chainId, w, first) && u == Evolve(reg, chainId, w, first)
    requires |u.ledger| == |w.ledger| && CanCommit(reg, chainId, u)
    ensures CanCommit(reg, chainId, w)
  {
    var inputs :| HonestRun(reg, chainId, u, inputs) && |Evolve(reg, chainId, u, inputs).ledger| > |u.ledger|;
    HonestConcat(reg, chainId, w, first, inputs);
  }

  lemma AheadCan(reg: Registry, chainId: string, w: World)
    requires WorldOk(reg, chainId, w) && Ahead(w)
    ensures CanCommit(reg, chainId, w)
  {
    var i := AheadCommits(reg, chainId, w);
    OneStep(reg, chainId, w, i);
  }

  lemma DownCan(reg: Registry, chainId: string, w: World)
    requires WorldOk(reg, chainId, w) && w.process.Down? && w.doubt.None?
    requires |w.ledger| != 1 && |w.ledger| + 1 < TWO31
    ensures CanCommit(reg, chainId, w)
  {
    ResumeExact(reg, chainId, w);
    NextKeeps(reg, chainId, w, GOOD_BOOT);
    AheadCan(reg, chainId, Next(reg, chainId, w, GOOD_BOOT));
    OneStep(reg, chainId, w, GOOD_BOOT);
    CanCommitAfter(reg, chainId, w, [GOOD_BOOT], Next(reg, chainId, w, GOOD_BOOT));
  }

  /** Exactly when the indexer is lost for good: some run still commits a block if and only if the
      world is not stuck. */
  lemma ProgressExactly(reg: Registry, chainId: string, w: World)
    requires WorldOk(reg, chainId, w) && |w.ledger| + 1 < TWO31
    ensures CanCommit(reg, chainId, w) <==> !Stuck(w)
  {
    if Stuck(w) {
      forall inputs | HonestRun(reg, chainId, w, inputs)
        ensures |Evolve(reg, chainId, w, inputs).ledger| == |w.ledger|
      {
        StuckForever(reg, chainId, w, inputs);
      }
    } else if w.doubt.Some? {
      OneStep(reg, chainId, w, Settle(true));
    } else if w.process.Down? {
      DownCan(reg, chainId, w);
    } else if w.process.currentBlock == |w.ledger| + 1 {
      AheadCan(reg, chainId, w);
    } else {
      NextKeeps(reg, chainId, w, Kill);
      DownCan(reg, chainId, Next(reg, chainId, w, Kill));
      OneStep(reg, chainId, w, Kill);
      CanCommitAfter(reg, chainId, w, [Kill], Next(reg, chainId, w, Kill));
    }
  }

  // ------------------------------------------------------- the hard cases do happen

  lemma Extend(reg: Registry, chainId: string, w: World, inputs: seq<Input>, i: Input)
    requires HonestRun(reg, chainId, w, inputs) && Honest(reg, chainId, Evolve(reg, chainId, w, inputs), i)
    ensures HonestRun(reg, chainId, w, inputs + [i])
    ensures Evolve(reg, chainId, w, inputs + [i]) == Next(reg, chainId, Evolve(reg, chainId, w, inputs), i)
  {
    OneStep(reg, chainId, Evolve(reg, chainId, w, inputs), i);
    HonestConcat(reg, chainId, w, inputs, [i]);
  }

  /** From an empty database a run can store any number of blocks. */
  lemma {:induction false} HeightReached(reg: Registry, chainId: string, w: World, n: nat) returns (inputs: seq<Input>)
    requires Fresh(w) && n < TWO31
    ensures HonestRun(reg, chainId, w, inputs)
    ensures var v := Evolve(reg, chainId, w, inputs);
            |v.ledger| == n && v.doubt.None? && v.process == Up(n + 1, 0, 0)
  {
    FreshOk(reg, chainId, w);
    if n == 0 {
      inputs := [GOOD_BOOT];
      OneStep(reg, chainId, w, GOOD_BOOT);
    } else {
      var front := HeightReached(reg, chainId, w, n - 1);
      EvolveKeeps(reg, chainId, w, front);
      var i := AheadCommits(reg, chainId, Evolve(reg, chainId, w, front));
      Extend(reg, chainId, w, front, i);
      inputs := front + [i];
    }
  }

  /** A run from an empty database gets stuck: kill and restart the process when one block is stored. */
  lemma StuckReached(reg: Registry, chainId: string, w: World) returns (inputs: seq<Input>)
    requires Fresh(w)
    ensures HonestRun(reg, chainId, w, inputs)
    ensures var v := Evolve(reg, chainId, w, inputs); Stuck(v) && v.process == Up(1, 0, 0)
  {
    var one := HeightReached(reg, chainId, w, 1);
    FreshOk(reg, chainId, w);
    Extend(reg, chainId, w, one, Kill);
    EvolveKeeps(reg, chainId, w, one + [Kill]);
    ResumeExact(reg, chainId, Evolve(reg, chainId, w, one + [Kill]));
    Extend(reg, chainId, w, one + [Kill], GOOD_BOOT);
    inputs := one + [Kill] + [GOOD_BOOT];
  }

  /** At every height a run can come to an ambiguous commit: block n + 1 is stored, and the process goes on
      asking for it. */
  lemma AmbiguityReached(reg: Registry, chainId: string, w: World, n: nat) returns (inputs: seq<Input>)
    requires Fresh(w) && n + 1 < TWO31
    ensures HonestRun(reg, chainId, w, inputs)
    ensures var v := Evolve(reg, chainId, w, inputs);
            |v.ledger| == n + 1 && v.process == Up(n + 1, 0, 1) && Behind(v)
  {
    var front := HeightReached(reg, chainId, w, n);
    FreshOk(reg, chainId, w);
    EvolveKeeps(reg, chainId, w, front);
    var u := Evolve(reg, chainId, w, front);
    var f, job := AskingJob(reg, chainId, u);
    var choices := AmbiguousCommitReached(job, u.db, u.serials);
    AllOrNothing(job, u.db, u.serials, choices);
    AnsweredHonest(reg, chainId, u, Iterate(f, choices));
    Extend(reg, chainId, w, front, Iterate(f, choices));
    inputs := front + [Iterate(f, choices)];
  }

  /** And at every height to a commit in doubt. */
  lemma DoubtfulReached(reg: Registry, chainId: string, w: World, n: nat) returns (inputs: seq<Input>)
    requires Fresh(w) && n + 1 < TWO31
    ensures HonestRun(reg, chainId, w, inputs)
    ensures var v := Evolve(reg, chainId, w, inputs);
            |v.ledger| == n && v.process == Up(n + 1, 0, 1) && v.doubt.Some?
  {
    var front := HeightReached(reg, chainId, w, n);
    FreshOk(reg, chainId, w);
    EvolveKeeps(reg, chainId, w, front);
    var u := Evolve(reg, chainId, w, front);
    var f, job := AskingJob(reg, chainId, u);
    var choices := DoubtReached(job, u.db, u.serials);
    AllOrNothing(job, u.db, u.serials, choices);
    AnsweredHonest(reg, chainId, u, Iterate(f, choices));
    Extend(reg, chainId, w, front, Iterate(f, choices));
    inputs := front + [Iterate(f, choices)];
  }

  /** The attempt of `f` fails and leaves one insert of transactions or events behind. */
  ghost predicate LeavesOne(w: World, f: Fetch, job: Job, choices: seq<Choice>, stmt: Stmt) {
    var a := Run(job, Start(w.db, w.serials), choices);
    && a.main.Thrown? && !a.destroyed && !a.applied && InDoubt(a).None? && Abandoned(a) == [stmt]
    && ChildInsert(stmt) && (stmt.InsertTransactions? || stmt.InsertEvents?) && stmt.height == job.height
  }

  lemma AfterLeaving(w: World, f: Fetch, job: Job, choices: seq<Choice>, stmt: Stmt)
    requires JobOk(job) && Consistent(w.db, w.serials) && w.process.Up? && w.doubt.None?
    requires LeavesOne(w, f, job, choices, stmt)
    ensures var u := AfterRun(w, f, Run(job, Start(w.db, w.serials), choices));
            && u == w.(serials := u.serials, process := AfterError(w.process), leftovers := w.leftovers + [stmt])
            && Consistent(u.db, u.serials)
  {
    AllOrNothing(job, w.db, w.serials, choices);
  }

  lemma AfterStoring(w: World, f: Fetch, job: Job, choices: seq<Choice>)
    requires JobOk(job) && Consistent(w.db, w.serials) && w.process.Up? && w.doubt.None?
    requires var a := Run(job, Start(w.db, w.serials), choices); a.main == Resolved && a.applied
    ensures var v := AfterRun(w, f, Run(job, Start(w.db, w.serials), choices));
            job.body.Store? && Holds(v.db, job.body.core) && v.leftovers == w.leftovers
  {
    AllOrNothing(job, w.db, w.serials, choices);
    var a := Run(job, Start(w.db, w.serials), choices);
    NewBlockHeld(w.db, w.serials, job.chainId, job.body.core, a.at, a.server.serials);
  }

  /** The same replies are received again and stored. */
  lemma StoredAgain(reg: Registry, chainId: string, u: World, f: Fetch, job: Job) returns (again: Input)
    requires PlanSpec(reg, chainId, f) == Proceed(job) && JobOk(job) && Storable(job, u.db)
    requires Consistent(u.db, u.serials) && u.process.Up? && u.doubt.None? && NodeHonest(u, Iterate(f, []))
    ensures Honest(reg, chainId, u, again)
    ensures var v := Next(reg, chainId, u, again); Holds(v.db, job.body.core) && v.leftovers == u.leftovers
  {
    var choices := SmoothCommits(job, u.db, u.serials);
    AfterStoring(u, f, job, choices);
    again := Iterate(f, choices);
    AnsweredHonest(reg, chainId, u, again);
  }

  /** The timing promise about leftover inserts of transactions and events is needed: a failed attempt leaves
      one behind, a retry with the same replies stores the block, which reads back as it should, and then the
      leftover statement executes, and it no longer does. */
  lemma LeftoverSpoils(reg: Registry, chainId: string, w: World, f: Fetch, job: Job, choices: seq<Choice>, stmt: Stmt)
      returns (again: Input)
    requires WorldOk(reg, chainId, w) && Ahead(w) && w.process.errorCount < MAX_ERRORS
    requires PlanSpec(reg, chainId, f) == Proceed(job) && Storable(job, w.db)
    requires NodeHonest(w, Iterate(f, choices)) && Answered(choices) && LeavesOne(w, f, job, choices, stmt)
    ensures HonestRun(reg, chainId, w, [Iterate(f, choices), again])
    ensures var v := Evolve(reg, chainId, w, [Iterate(f, choices), again]);
            var x := Next(reg, chainId, v, Leftover(|w.leftovers|, false));
            var core := job.body.core;
            && GetCoreBlock(v.db, v.db, core.height) == Some(SpecView(core))
            && GetCoreBlock(x.db, x.db, core.height) != Some(SpecView(core))
  {
    CoreOfPlan(reg, chainId, f);
    AfterLeaving(w, f, job, choices, stmt);
    var first := Iterate(f, choices);
    var u := Next(reg, chainId, w, first);
    assert u == AfterRun(w, f, Run(job, Start(w.db, w.serials), choices));
    again := StoredAgain(reg, chainId, u, f, job);
    var v := Next(reg, chainId, u, again);
    AnsweredHonest(reg, chainId, w, first);
    OneStep(reg, chainId, w, first);
    Extend(reg, chainId, w, [first], again);
    assert [first] + [again] == [first, again];
    ReadBack(v.db, job.body.core);
    LateLeftover(reg, chainId, v, |w.leftovers|, job.body.core);
  }

  lemma LateLeftover(reg: Registry, chainId: string, v: World, k: nat, core: BlockCore)
    requires k < |v.leftovers| && Holds(v.db, core) && ChildInsert(v.leftovers[k])
    requires var stmt := v.leftovers[k];
             (stmt.InsertTransactions? || stmt.InsertEvents?) && stmt.height == core.height
    ensures var x := Next(reg, chainId, v, Leftover(k, false));
            GetCoreBlock(x.db, x.db, core.height) != Some(SpecView(core))
  {
    LeftoverAfterCommit(v.db, v.serials, core, v.leftovers[k]);
  }

  /** From an empty database: a leftover insert of events, for a first block with transactions and events but
      no messages. */
  lemma LeftoverEventsSpoil(reg: Registry, chainId: string, w: World, f: Fetch, core: BlockCore)
      returns (inputs: seq<Input>, leftover: Input)
    requires Fresh(w) && PlanSpec(reg, chainId, f) == Proceed(Job(chainId, 1, Store(core)))
    requires f.block.value.header.value.height == 1
    requires core.transactions != [] && core.messages == [] && core.events != []
    ensures HonestRun(reg, chainId, w, inputs) && leftover.Leftover?
    ensures var v := Evolve(reg, chainId, w, inputs);
            var x := Next(reg, chainId, v, leftover);
            && GetCoreBlock(v.db, v.db, 1) == Some(SpecView(core))
            && GetCoreBlock(x.db, x.db, 1) != Some(SpecView(core))
  {
    var job := Job(chainId, 1, Store(core));
    var u := Booted(reg, chainId, w);
    CoreOfPlan(reg, chainId, f);
    var choices := LateInsertReached(job, u.db, u.serials);
    var stmt := InsertEvents(core.events, core.time, core.height);
    OneLeft(Run(job, Start(u.db, u.serials), choices), Entry(stmt, Inserter));
    inputs := AfterBoot(reg, chainId, w, u, f, job, choices, stmt);
    leftover := Leftover(0, false);
  }

  /** And a leftover insert of transactions. */
  lemma LeftoverTransactionsSpoil(reg: Registry, chainId: string, w: World, f: Fetch, core: BlockCore)
      returns (inputs: seq<Input>, leftover: Input)
    requires Fresh(w) && PlanSpec(reg, chainId, f) == Proceed(Job(chainId, 1, Store(core)))
    requires f.block.value.header.value.height == 1 && core.transactions != []
    ensures HonestRun(reg, chainId, w, inputs) && leftover.Leftover?
    ensures var v := Evolve(reg, chainId, w, inputs);
            var x := Next(reg, chainId, v, leftover);
            && GetCoreBlock(v.db, v.db, 1) == Some(SpecView(core))
            && GetCoreBlock(x.db, x.db, 1) != Some(SpecView(core))
  {
    var job := Job(chainId, 1, Store(core));
    var u := Booted(reg, chainId, w);
    CoreOfPlan(reg, chainId, f);
    var choices := LateTransactionsReached(job, u.db, u.serials);
    var stmt := InsertTransactions(core.transactions, core.time, core.height);
    OneLeft(Run(job, Start(u.db, u.serials), choices), Entry(stmt, Inserter));
    inputs := AfterBoot(reg, chainId, w, u, f, job, choices, stmt);
    leftover := Leftover(0, false);
  }

  lemma Booted(reg: Registry, chainId: string, w: World) returns (u: World)
    requires Fresh(w)
    ensures u == Next(reg, chainId, w, GOOD_BOOT) && WorldOk(reg, chainId, u) && Ahead(u)
    ensures u.db.blocks == map[] && u.process == Up(1, 0, 0) && u.leftovers == []
    ensures HonestRun(reg, chainId, w, [GOOD_BOOT]) && Evolve(reg, chainId, w, [GOOD_BOOT]) == u
  {
    FreshOk(reg, chainId, w);
    NextKeeps(reg, chainId, w, GOOD_BOOT);
    OneStep(reg, chainId, w, GOOD_BOOT);
    u := Next(reg, chainId, w, GOOD_BOOT);
  }

  lemma OneLeft(a: Attempt, e: Entry)
    requires a.main.Thrown? && !a.destroyed && a.queue == [e] && !e.stmt.Read?
    ensures Abandoned(a) == [e.stmt]
  {
    assert [] + [e] == [e];
    FilterMapSnoc(OwnStmt, [], e);
  }

  lemma AfterBoot(reg: Registry, chainId: string, w: World, u: World, f: Fetch, job: Job, choices: seq<Choice>,
                  stmt: Stmt) returns (inputs: seq<Input>)
    requires HonestRun(reg, chainId, w, [GOOD_BOOT]) && Evolve(reg, chainId, w, [GOOD_BOOT]) == u
    requires WorldOk(reg, chainId, u) && Ahead(u) && u.process == Up(1, 0, 0) && u.leftovers == []
    requires PlanSpec(reg, chainId, f) == Proceed(job) && Storable(job, u.db)
    requires NodeHonest(u, Iterate(f, choices)) && Answered(choices) && LeavesOne(u, f, job, choices, stmt)
    ensures HonestRun(reg, chainId, w, inputs)
    ensures var v := Evolve(reg, chainId, w, inputs);
            var x := Next(reg, chainId, v, Leftover(0, false));
            var core := job.body.core;
            && GetCoreBlock(v.db, v.db, core.height) == Some(SpecView(core))
            && GetCoreBlock(x.db, x.db, core.height) != Some(SpecView(core))
  {
    var again := LeftoverSpoils(reg, chainId, u, f, job, choices, stmt);
    HonestConcat(reg, chainId, w, [GOOD_BOOT], [Iterate(f, choices), again]);
    inputs := [GOOD_BOOT] + [Iterate(f, choices), again];
  }

  // ------------------------------------------------------------------ lost blocks

  /** A process that asks for a height that is not stored can be told that it is by one refused read: it goes
      on to the next height, and nothing was stored. */
  lemma AskingLoses(reg: Registry, chainId: string, w: World, r: Request) returns (i: Input)
    requires Asking(w) && !Answerable(r)
    ensures i.Iterate? && NodeHonest(w, i) && Undisturbed(i.choices, r)
    ensures var v := Next(reg, chainId, w, i);
            && v == w.(serials := v.serials, process := Up(w.process.currentBlock + 1, 0, 0))
            && Consistent(v.db, v.serials) && w.serials.tx <= v.serials.tx
  {
    var f, job := AskingJob(reg, chainId, w);
    var choices := LossReached(job, w.db, w.serials, r);
    AllOrNothing(job, w.db, w.serials, choices);
    AfterLoss(w, f, Run(job, Start(w.db, w.serials), choices));
    i := Iterate(f, choices);
    assert Next(reg, chainId, w, i) == AfterRun(w, f, Run(job, Start(w.db, w.serials), choices));
  }

  lemma AfterLoss(w: World, f: Fetch, a: Attempt)
    requires w.process.Up? && w.doubt.None?
    requires a.main == Resolved && !a.applied && a.server.committed == w.db && InDoubt(a).None? && Abandoned(a) == []
    ensures AfterRun(w, f, a) ==
            w.(serials := a.server.serials, process := Up(w.process.currentBlock + 1, 0, 0))
  {}

  /** Block `h` is stored and the process goes on to the next. */
  ghost predicate Stored(chainId: string, w: World, v: World, h: int) {
    && v.db.blocks.Keys == w.db.blocks.Keys + {h}
    && (chainId in w.db.chains ==> chainId in v.db.chains && v.db.chains[chainId] == h)
    && v.process == Up(h + 1, 0, 0)
    && v.doubt.None? && v.leftovers == w.leftovers && Consistent(v.db, v.serials)
  }

  lemma AfterStored(w: World, f: Fetch, job: Job, a: Attempt)
    requires Asking(w) && JobOk(job) && job.height == w.process.currentBlock && Outcome(job, w.db, w.serials, a)
    requires a.main == Resolved && a.applied
    ensures Stored(job.chainId, w, AfterRun(w, f, a), job.height)
  {
    WithBlockConsistent(w.db, w.serials, job.chainId, job.body.core, a.at, a.server.serials);
  }

  lemma AskingStores(reg: Registry, chainId: string, w: World) returns (i: Input)
    requires Asking(w)
    ensures Honest(reg, chainId, w, i) && Stored(chainId, w, Next(reg, chainId, w, i), w.process.currentBlock)
  {
    var f, job := AskingJob(reg, chainId, w);
    var choices := SmoothCommits(job, w.db, w.serials);
    AllOrNothing(job, w.db, w.serials, choices);
    AfterStored(w, f, job, Run(job, Start(w.db, w.serials), choices));
    i := Iterate(f, choices);
    AnsweredHonest(reg, chainId, w, i);
    assert Next(reg, chainId, w, i) == AfterRun(w, f, Run(job, Start(w.db, w.serials), choices));
  }

  /** The checkpoint has passed a height that is not stored. */
  ghost predicate Skipped(chainId: string, w: World, h: int) {
    && Consistent(w.db, w.serials) && LeftoversOk(w)
    && 1 <= h && Past(chainId, w.db, h)
    && (w.process.Up? ==> w.process.currentBlock > h)
    && (w.doubt.Some? ==> Past(chainId, w.doubt.value.tables, h) && Consistent(w.doubt.value.tables, w.serials))
  }

  ghost predicate Past(chainId: string, t: Tables, h: int) {
    h !in t.blocks && chainId in t.chains && t.chains[chainId] > h
  }

  /** Block `h` is reported as stored from `u` to `v` without being stored, block `h` + 1 is stored from `v` to
      `x`, and the checkpoint has passed the gap. */
  ghost predicate Gap(chainId: string, u: World, v: World, x: World, h: int) {
    && u.process == Up(h, 0, 0) && v.process == Up(h + 1, 0, 0)
    && v.db == u.db && v.ledger == u.ledger
    && h + 1 in x.db.blocks && x.process == Up(h + 2, 0, 0) && Skipped(chainId, x, h)
  }

  /** `lost` loses block `h`, with no fault but the refused read `r`; then `next` stores block `h` + 1. */
  ghost predicate Loses(reg: Registry, chainId: string, u: World, h: int, r: Request, lost: Input, next: Input) {
    var v := Next(reg, chainId, u, lost);
    && lost.Iterate? && NodeHonest(u, lost) && Undisturbed(lost.choices, r)
    && Honest(reg, chainId, v, next) && Gap(chainId, u, v, Next(reg, chainId, v, next), h)
  }

  lemma AheadLoses(reg: Registry, chainId: string, u: World, r: Request) returns (lost: Input, next: Input)
    requires WorldOk(reg, chainId, u) && Ahead(u) && u.process.currentBlock + 1 < TWO31 && !Answerable(r)
    requires u.process == Up(u.process.currentBlock, 0, 0)
    ensures Loses(reg, chainId, u, u.process.currentBlock, r, lost, next)
  {
    lost := AskingLoses(reg, chainId, u, r);
    var v := Next(reg, chainId, u, lost);
    next := GapOpens(reg, chainId, u, v);
    GapMeaning(chainId, u, v, Next(reg, chainId, v, next));
  }

  lemma GapMeaning(chainId: string, u: World, v: World, x: World)
    requires u.process.Up? && u.process == Up(u.process.currentBlock, 0, 0)
    requires v == u.(serials := v.serials, process := Up(u.process.currentBlock + 1, 0, 0))
    requires v.process.currentBlock in x.db.blocks
    requires x.process == Up(v.process.currentBlock + 1, 0, 0) && Skipped(chainId, x, u.process.currentBlock)
    ensures Gap(chainId, u, v, x, u.process.currentBlock)
  {}

  /** Every refused read can lose any block n + 1, in a run from an empty database. */
  lemma BlockLost(reg: Registry, chainId: string, w: World, n: nat, r: Request)
      returns (inputs: seq<Input>, lost: Input, next: Input)
    requires Fresh(w) && n + 2 < TWO31 && !Answerable(r)
    ensures HonestRun(reg, chainId, w, inputs) && |Evolve(reg, chainId, w, inputs).ledger| == n
    ensures Loses(reg, chainId, Evolve(reg, chainId, w, inputs), n + 1, r, lost, next)
  {
    inputs := HeightReached(reg, chainId, w, n);
    FreshOk(reg, chainId, w);
    EvolveKeeps(reg, chainId, w, inputs);
    lost, next := AheadLoses(reg, chainId, Evolve(reg, chainId, w, inputs), r);
  }

  lemma GapOpens(reg: Registry, chainId: string, u: World, v: World) returns (next: Input)
    requires WorldOk(reg, chainId, u) && Ahead(u) && u.process.currentBlock + 1 < TWO31
    requires v == u.(serials := v.serials, process := Up(u.process.currentBlock + 1, 0, 0))
    requires Consistent(v.db, v.serials) && u.serials.tx <= v.serials.tx
    ensures Honest(reg, chainId, v, next)
    ensures var x := Next(reg, chainId, v, next);
            && v.process.currentBlock in x.db.blocks && x.process == Up(v.process.currentBlock + 1, 0, 0)
            && Skipped(chainId, x, u.process.currentBlock)
  {
    next := AskingStores(reg, chainId, v);
    KeptLeftoversOk(u, v);
    NextLeftoversOk(reg, chainId, v, next);
  }

  lemma SkippedAttempt(reg: Registry, chainId: string, w: World, h: int, f: Fetch, choices: seq<Choice>)
    requires Skipped(chainId, w, h) && Honest(reg, chainId, w, Iterate(f, choices)) && w.process.Up?
    requires PlanSpec(reg, chainId, f).Proceed?
    ensures Skipped(chainId, AfterRun(w, f, AttemptIn(w, PlanSpec(reg, chainId, f).job, choices)), h)
  {
    var job := PlanSpec(reg, chainId, f).job;
    var a := AttemptIn(w, job, choices);
    CoreOfPlan(reg, chainId, f);
    HeightInStep(reg, chainId, w, f, choices);
    AttemptedIn(w, job, choices);
    AttemptLeftoversOk(w, f, job, choices);
    if a.applied || InDoubt(a).Some? {
      WithBlockConsistent(w.db, w.serials, chainId, job.body.core, a.at, a.server.serials);
    }
  }

  lemma SkippedStep(reg: Registry, chainId: string, w: World, h: int, i: Input)
    requires Skipped(chainId, w, h) && Honest(reg, chainId, w, i)
    ensures Skipped(chainId, Next(reg, chainId, w, i), h)
  {
    NextLeftoversOk(reg, chainId, w, i);
    match i
    case Iterate(f, choices) =>
      if w.process.Up? && PlanSpec(reg, chainId, f).Proceed? { SkippedAttempt(reg, chainId, w, h, f, choices); }
    case Leftover(which, fault) =>
      if which < |w.leftovers| { LeftoverIsNoOp(w, w.leftovers[which], fault); }
    case _ =>
  }

  /** A lost block is lost for good: once the checkpoint has passed it, no run stores it any more, restarts
      included, and it always reads as null. */
  lemma {:induction false} LostForever(reg: Registry, chainId: string, w: World, inputs: seq<Input>, h: int)
    requires Skipped(chainId, w, h) && HonestRun(reg, chainId, w, inputs)
    ensures var v := Evolve(reg, chainId, w, inputs);
            Skipped(chainId, v, h) && GetCoreBlock(v.db, v.db, h) == None
  {
    if inputs == [] {
    } else {
      var front := inputs[..|inputs| - 1];
      LostForever(reg, chainId, w, front, h);
      SkippedStep(reg, chainId, Evolve(reg, chainId, w, front), h, inputs[|inputs| - 1]);
    }
  }

  // ---------------------------------------------------------- leftover statements

  lemma {:induction false} HarmlessForever(reg: Registry, chainId: string, w: World, inputs: seq<Input>, stmt: Stmt)
    requires WorldOk(reg, chainId, w) && HonestRun(reg, chainId, w, inputs) && Harmless(w, stmt)
    ensures Harmless(Evolve(reg, chainId, w, inputs), stmt)
  {
    if inputs == [] {
    } else {
      var front := inputs[..|inputs| - 1];
      HarmlessForever(reg, chainId, w, front, stmt);
      EvolveKeeps(reg, chainId, w, front);
      var u := Evolve(reg, chainId, w, front);
      NextIdsGrow(reg, chainId, u, inputs[|inputs| - 1]);
      HarmlessStays(u, Next(reg, chainId, u, inputs[|inputs| - 1]), stmt);
    }
  }

  /** A message insert that a failed attempt left behind is harmless for ever: however late it executes, and
      whatever blocks, its own height included, were stored meanwhile, it changes nothing. An insert of
      transactions or events is harmless as long as its height is not stored. */
  lemma LeftoversHarmless(reg: Registry, chainId: string, w: World, inputs: seq<Input>, k: nat, fault: bool)
    requires WorldOk(reg, chainId, w) && HonestRun(reg, chainId, w, inputs) && k < |w.leftovers|
    ensures var stmt := w.leftovers[k];
            var v := Evolve(reg, chainId, w, inputs);
            (stmt.InsertTransactions? || stmt.InsertEvents? ==> stmt.height !in v.db.blocks) ==>
              Exec(Server(v.db, Idle, v.serials), stmt, fault).0.committed == v.db
  {
    var stmt, v := w.leftovers[k], Evolve(reg, chainId, w, inputs);
    HarmlessForever(reg, chainId, w, inputs, stmt);
    if stmt.InsertTransactions? || stmt.InsertEvents? ==> stmt.height !in v.db.blocks {
      LeftoverIsNoOp(v, stmt, fault);
    }
  }

  // --------------------------------------------------------------- retry bound

  /** The iteration reports a committed block. */
  ghost predicate Advances(reg: Registry, chainId: string, w: World, i: Input) {
    && i.Iterate? && w.process.Up? && PlanSpec(reg, chainId, i.fetch).Proceed?
    && AttemptIn(w, PlanSpec(reg, chainId, i.fetch).job, i.choices).main.Resolved?
  }

  ghost predicate Unadvanced(reg: Registry, chainId: string, w: World, inputs: seq<Input>) {
    inputs == [] ||
    (Unadvanced(reg, chainId, w, inputs[..|inputs| - 1]) &&
     !Advances(reg, chainId, Evolve(reg, chainId, w, inputs[..|inputs| - 1]), inputs[|inputs| - 1]))
  }

  /** The iteration runs and is not one that only waits for the ABCI layer. */
  ghost predicate Charges(reg: Registry, chainId: string, w: World, i: Input) {
    i.Iterate? && w.process.Up? && PlanSpec(reg, chainId, i.fetch) != AbciBehind
  }

  ghost function Charged(reg: Registry, chainId: string, w: World, inputs: seq<Input>): nat {
    if inputs == [] then 0 else
    var front := inputs[..|inputs| - 1];
    Charged(reg, chainId, w, front) +
    if Charges(reg, chainId, Evolve(reg, chainId, w, front), inputs[|inputs| - 1]) then 1 else 0
  }

  function Variant(p: Process): int
    requires p.Up?
  {
    21 * (3 - p.errorCount) + (20 - p.count)
  }

  ghost predicate CountersOk(p: Process) {
    p.Up? ==> p.count <= MAX_ATTEMPTS && p.errorCount <= MAX_ERRORS
  }

  lemma VariantStep(reg: Registry, chainId: string, w: World, i: Input)
    requires CountersOk(w.process) && !i.Boot? && !Advances(reg, chainId, w, i)
    ensures var p := Next(reg, chainId, w, i).process;
            && CountersOk(p)
            && (p.Up? ==> w.process.Up? && 0 <= Variant(p) &&
                          Variant(p) + (if Charges(reg, chainId, w, i) then 1 else 0) <= Variant(w.process))
  {}

  /** Leaving aside iterations that wait for the ABCI layer, the loop variant bounds the iterations without
      a reported commit: the loop survives at most 83 of them. */
  lemma {:induction false} RetryBound(reg: Registry, chainId: string, w: World, inputs: seq<Input>)
    requires CountersOk(w.process) && Unadvanced(reg, chainId, w, inputs)
    requires forall k :: 0 <= k < |inputs| ==> !inputs[k].Boot?
    ensures var v := Evolve(reg, chainId, w, inputs);
            && CountersOk(v.process)
            && (v.process.Up? ==> w.process.Up? &&
                                  Charged(reg, chainId, w, inputs) + Variant(v.process) <= Variant(w.process))
            && (Charged(reg, chainId, w, inputs) >= 84 ==> v.process.Down?)
  {
    if inputs == [] {
    } else {
      var front := inputs[..|inputs| - 1];
      RetryBound(reg, chainId, w, front);
      VariantStep(reg, chainId, Evolve(reg, chainId, w, front), inputs[|inputs| - 1]);
    }
  }

  const NO_REPLIES := Iterate(Fetch(None, None, None), [])

  lemma UnansweredStep(reg: Registry, chainId: string, w: World)
    ensures Next(reg, chainId, w, NO_REPLIES) == if w.process.Up? then w.(process := AfterRetry(w.process)) else w
    ensures Charges(reg, chainId, w, NO_REPLIES) <==> w.process.Up?
  {
    assert PlanSpec(reg, chainId, NO_REPLIES.fetch) == Retry;
  }

  /** The counters after k iterations without replies. */
  function Unanswered(currentBlock: int, k: nat): Process {
    if k <= 83 then Up(currentBlock, k % 21, k / 21) else Down
  }

  lemma UnansweredNext(currentBlock: int, k: nat)
    requires k <= 83
    ensures AfterRetry(Unanswered(currentBlock, k)) == Unanswered(currentBlock, k + 1)
  {}

  /** The bound is tight: a loop that has just started survives 83 iterations without replies, and the
      84th ends it. */
  lemma {:induction false} RetryBoundTight(reg: Registry, chainId: string, w: World, k: nat)
    requires w.process.Up? && w.process.count == 0 && w.process.errorCount == 0 && k <= 84
    ensures Charged(reg, chainId, w, seq(k, _ => NO_REPLIES)) == k
    ensures Evolve(reg, chainId, w, seq(k, _ => NO_REPLIES)).process == Unanswered(w.process.currentBlock, k)
  {
    if k == 0 {
    } else {
      var all, front := seq(k, _ => NO_REPLIES), seq(k - 1, _ => NO_REPLIES);
      RetryBoundTight(reg, chainId, w, k - 1);
      assert all[..k - 1] == front && all[k - 1] == NO_REPLIES;
      UnansweredStep(reg, chainId, Evolve(reg, chainId, w, front));
      UnansweredNext(w.process.currentBlock, k - 1);
    }
  }
}
