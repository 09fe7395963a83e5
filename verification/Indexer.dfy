/** The indexer process as the program writes it: start-up and the sync loop over mutable state
    (src/sync/sync_chain.ts, src/sync/sync_blocks.ts, src/postgres/chain.ts). */
module Indexer {
  import opened Prelude
  import opened RawData
  import opened Database
  import opened BlockSync
  import opened CommitProtocol
  import opened ProtocolTheorems
  import opened SyncLoop

  /** How a transaction ended for the loop. */
  datatype Ending = Stored | Refused | Died

  function EndingOf(a: Attempt): Ending {
    if a.main.Resolved? then Stored else if a.main.Thrown? then Refused else Died
  }

  function AfterEnding(p: Process, ending: Ending): Process
    requires p.Up?
  {
    match ending
    case Stored => Up(p.currentBlock + 1, 0, 0)
    case Refused => AfterError(p)
    case Died => Down
  }

  lemma EndingDecides(w: World, f: Fetch, a: Attempt)
    requires w.process.Up?
    ensures AfterRun(w, f, a).process == AfterEnding(w.process, EndingOf(a))
  {}

  class IndexerProcess {
    const reg: Registry
    const chainId: string

    // durable
    var db: Tables
    var serials: Serials
    var doubt: Option<Doubt>
    ghost var ledger: seq<Fetch>
    ghost var leftovers: seq<Stmt>

    // volatile
    var syncing: bool
    var currentBlock: int
    var count: nat
    var errorCount: nat

    constructor (reg: Registry, chainId: string)
      ensures Fresh(State()) && this.reg == reg && this.chainId == chainId
    {
      this.reg, this.chainId := reg, chainId;
      db, serials, doubt := Tables(map[], map[], [], [], []), Serials(1, 1, 1), None;
      ledger, leftovers := [], [];
      syncing, currentBlock, count, errorCount := false, 1, 0, 0;
    }

    ghost function State(): World
      reads this
    {
      World(db, serials, doubt, if syncing then Up(currentBlock, count, errorCount) else Down, ledger, leftovers)
    }

    /** The row of the chain, if the look-up is answered. */
    method GetChain(answer: Answer) returns (r: Result<Option<int>>)
      ensures r == if answer.Lost? then Threw
                   else Returned(if chainId in db.chains then Some(db.chains[chainId]) else None)
    {
      if answer.Lost? {
        return Threw;
      }
      r := Returned(if chainId in db.chains then Some(db.chains[chainId]) else None);
    }

    /** Inserts the row of the chain; the insert may execute although the client is told it failed. */
    method CreateChain(answer: Answer) returns (ok: bool)
      requires chainId !in db.chains
      modifies this`db
      ensures ok == answer.Fine?
      ensures db == if answer == Lost(false) then old(db) else WithChain(old(db), chainId)
    {
      ok := answer.Fine?;
      if answer != Lost(false) {
        db := db.(chains := db.chains[chainId := 1]);
      }
    }

    /** Start-up: find or create the checkpoint row, read it, and set the loop variables. */
    method Start(nodeKnown: bool, lookup: Answer, create: Answer, read: Answer)
      modifies this
      ensures State() == Next(reg, chainId, old(State()), Boot(nodeKnown, lookup, create, read))
    {
      if syncing || !nodeKnown {
        return;
      }
      var existing := GetChain(lookup);
      if existing.Threw? {
        return;
      }
      if existing.value.None? {
        var created := CreateChain(create);
        if !created {
          return;
        }
      }
      var chain := GetChain(read);
      if chain.Threw? {
        return;
      }
      currentBlock := if chain.value.Some? && chain.value.value != 0 then chain.value.value else 1;
      if currentBlock != 1 {
        currentBlock := currentBlock + 1;
      }
      count, errorCount, syncing := 0, 0, true;
    }

    /** One attempt to store a block, under a given interleaving of its tasks. The loop variables stay. */
    method StoreBlock(job: Job, f: Fetch, choices: seq<Choice>) returns (ending: Ending, ghost after: Attempt)
      requires syncing
      modifies this`db, this`serials, this`doubt, this`ledger, this`leftovers
      ensures after == AttemptIn(old(State()), job, choices)
      ensures State() == AfterRun(old(State()), f, after).(process := old(State()).process)
      ensures ending == EndingOf(after)
    {
      var a := CommitProtocol.Start(db, serials);
      for k := 0 to |choices|
        invariant a == AttemptIn(State(), job, choices[..k]) && State() == old(State())
      {
        assert choices[..k + 1][..k] == choices[..k];
        a := Step(job, a, if doubt.Some? then Blocked(a, choices[k]) else choices[k]);
      }
      assert choices[..|choices|] == choices;
      var left := InDoubt(a);
      if left.Some? {
        doubt := Some(Doubt(left.value, f, serials, a.at));
      }
      db, serials := a.server.committed, a.server.serials;
      ledger, leftovers := if a.applied then ledger + [f] else ledger, leftovers + Abandoned(a);
      ending, after := EndingOf(a), a;
    }

    /** The catch block of the loop. */
    method HandleError()
      requires syncing
      modifies this`syncing, this`count, this`errorCount
      ensures State() == old(State()).(process := AfterError(old(State()).process))
    {
      count := 0;
      errorCount := errorCount + 1;
      if errorCount > MAX_ERRORS {
        syncing := false;
      }
    }

    /** What becomes of the loop variables. */
    method Conclude(ending: Ending)
      requires syncing
      modifies this`syncing, this`currentBlock, this`count, this`errorCount
      ensures State() == old(State()).(process := AfterEnding(old(State()).process, ending))
    {
      match ending {
        case Stored =>
          currentBlock, errorCount, count := currentBlock + 1, 0, 0;
        case Refused =>
          HandleError();
        case Died =>
          syncing := false;
      }
    }

    /** The attempt of an iteration, and what becomes of the loop variables. */
    method Attempt(job: Job, f: Fetch, choices: seq<Choice>) returns (ghost a: Attempt)
      requires syncing
      modifies this
      ensures a == AttemptIn(old(State()), job, choices) && State() == AfterRun(old(State()), f, a)
    {
      var ending;
      ending, a := StoreBlock(job, f, choices);
      EndingDecides(old(State()), f, a);
      Conclude(ending);
    }

    /** The body of the sync loop. */
    method IterateOnce(f: Fetch, choices: seq<Choice>)
      requires syncing
      modifies this
      ensures State() == Next(reg, chainId, old(State()), Iterate(f, choices))
    {
      var plan := MakePlan(reg, chainId, f);
      match plan {
        case Retry =>
          count := count + 1;
          if count > MAX_ATTEMPTS {
            HandleError();
          }
        case AbciBehind =>
        case Malformed =>
          HandleError();
        case Proceed(job) =>
          ghost var a := Attempt(job, f, choices);
      }
    }

    /** The sync loop, over the replies and interleavings of a finite stretch of its iterations. */
    method StartSync(script: seq<(Fetch, seq<Choice>)>)
      modifies this
      ensures State() == Evolve(reg, chainId, old(State()), Iterations(script))
    {
      var k := 0;
      while syncing && k < |script|
        invariant k <= |script|
        invariant State() == Evolve(reg, chainId, old(State()), Iterations(script[..k]))
      {
        IterateOnce(script[k].0, script[k].1);
        assert Iterations(script[..k + 1]) == Iterations(script[..k]) + [Iterate(script[k].0, script[k].1)];
        EvolveSnoc(reg, chainId, old(State()), Iterations(script[..k]), Iterate(script[k].0, script[k].1));
        k := k + 1;
      }
      assert script[..|script|] == script;
      if k < |script| {
        DownStays(reg, chainId, old(State()), script, k);
      }
    }
  }

  function Iterations(script: seq<(Fetch, seq<Choice>)>): seq<Input> {
    seq(|script|, k requires 0 <= k < |script| => Iterate(script[k].0, script[k].1))
  }

  lemma EvolveSnoc(reg: Registry, chainId: string, w: World, inputs: seq<Input>, i: Input)
    ensures Evolve(reg, chainId, w, inputs + [i]) == Next(reg, chainId, Evolve(reg, chainId, w, inputs), i)
  {
    assert (inputs + [i])[..|inputs + [i]| - 1] == inputs;
  }

  /** A process that is down ignores further iterations. */
  lemma {:induction false} DownStays(reg: Registry, chainId: string, w: World, script: seq<(Fetch, seq<Choice>)>,
      k: nat)
    requires k <= |script| && Evolve(reg, chainId, w, Iterations(script[..k])).process.Down?
    ensures Evolve(reg, chainId, w, Iterations(script)) == Evolve(reg, chainId, w, Iterations(script[..k]))
  {
    if k == |script| {
      assert script[..k] == script;
    } else {
      var front := script[..|script| - 1];
      assert front[..k] == script[..k];
      DownStays(reg, chainId, w, front, k);
      assert Iterations(script) == Iterations(front) + [Iterate(script[|script| - 1].0, script[|script| - 1].1)];
      EvolveSnoc(reg, chainId, w, Iterations(front), Iterate(script[|script| - 1].0, script[|script| - 1].1));
    }
  }
}
