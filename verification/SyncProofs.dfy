/** The invariant of whole runs and what follows from it. */
module SyncProofs {
  import opened Prelude
  import opened RawData
  import opened Database
  import opened BlockSync
  import opened BlockQuery
  import opened BlockStore
  import opened RowMeaning
  import opened CommitProtocol
  import opened SharedClient
  import opened ProtocolTheorems
  import opened SyncLoop

  /** The block that the pure specification makes of the node's replies. */
  function CoreOf(reg: Registry, chainId: string, f: Fetch): Option<BlockCore> {
    match PlanSpec(reg, chainId, f)
    case Proceed(job) => (match job.body case Store(core) => Some(core) case _ => None)
    case _ => None
  }

  function Checkpoint(n: nat): int {
    if n == 0 then 1 else n
  }

  ghost predicate HeldWhole(t: Tables, core: BlockCore) {
    Holds(t, core) && exists o :: RowsStored(t, core, o)
  }

  ghost predicate EntryHeld(reg: Registry, chainId: string, t: Tables, f: Fetch, height: int) {
    var core := CoreOf(reg, chainId, f);
    core.Some? && core.value.height == height && HeldWhole(t, core.value)
  }

  ghost predicate EntriesHeld(reg: Registry, chainId: string, t: Tables, ledger: seq<Fetch>) {
    forall k :: 0 <= k < |ledger| ==> EntryHeld(reg, chainId, t, ledger[k], k + 1)
  }

  /** The committed heights are 1 to n, and the checkpoint is max(1, n). */
  ghost predicate HeightsOk(chainId: string, t: Tables, n: nat) {
    && (forall h :: h in t.blocks <==> 1 <= h <= n)
    && (if chainId in t.chains then t.chains[chainId] == Checkpoint(n) else n == 0)
  }

  ghost predicate LedgerHeld(reg: Registry, chainId: string, t: Tables, ledger: seq<Fetch>) {
    HeightsOk(chainId, t, |ledger|) && EntriesHeld(reg, chainId, t, ledger)
  }

  ghost predicate ProcessOk(chainId: string, w: World) {
    w.process.Up? ==>
      var n := |w.ledger|;
      var p := w.process;
      && chainId in w.db.chains
      && 1 <= p.currentBlock <= n + 1
      && (p.currentBlock >= n || (n == 2 && p.currentBlock == 1))
      && p.count <= MAX_ATTEMPTS && p.errorCount <= MAX_ERRORS
  }

  ghost predicate DoubtOk(reg: Registry, chainId: string, w: World) {
    w.doubt.Some? ==>
      var d := w.doubt.value;
      var core := CoreOf(reg, chainId, d.fetch);
      && core.Some? && core.value.height == |w.ledger| + 1
      && chainId in w.db.chains
      && Fits(w.db, d.before, core.value, d.at, w.serials)
      && d.tables == WithBlock(w.db, chainId, core.value, d.at)
      && (w.process.Up? ==>
            w.process.currentBlock == |w.ledger| + 1 || (|w.ledger| == 1 && w.process.currentBlock == 1))
  }

  ghost predicate BaseOk(reg: Registry, chainId: string, w: World) {
    && Consistent(w.db, w.serials)
    && LedgerHeld(reg, chainId, w.db, w.ledger)
    && ProcessOk(chainId, w)
    && DoubtOk(reg, chainId, w)
  }

  lemma CoreOfPlan(reg: Registry, chainId: string, f: Fetch)
    requires PlanSpec(reg, chainId, f).Proceed?
    ensures var job := PlanSpec(reg, chainId, f).job;
            && JobOk(job) && job.chainId == chainId
            && CoreOf(reg, chainId, f) == (if job.body.Store? then Some(job.body.core) else None)
            && f.block.Some? && f.block.value.header.Some? && job.height == LowWord(f.block.value.header.value.height)
  {
    PlanLinked(reg, chainId, f);
  }

  lemma EntriesGrow(reg: Registry, chainId: string, t: Tables, ledger: seq<Fetch>, f: Fetch, core: BlockCore,
                    n: Serials, at: Serials, n': Serials, k: nat)
    requires LedgerHeld(reg, chainId, t, ledger) && k <= |ledger|
    requires CoreOf(reg, chainId, f) == Some(core) && core.height == |ledger| + 1
    requires Fits(t, n, core, at, n')
    ensures EntryHeld(reg, chainId, WithBlock(t, chainId, core, at), (ledger + [f])[k], k + 1)
  {
    if k < |ledger| {
      EntryStays(reg, chainId, t, ledger[k], k + 1, core, n, at, n');
    } else {
      NewBlockHeld(t, n, chainId, core, at, n');
      NewRowsStored(t, n, chainId, core, at, n');
    }
  }

  lemma AllEntriesGrow(reg: Registry, chainId: string, t: Tables, ledger: seq<Fetch>, f: Fetch, core: BlockCore,
                       n: Serials, at: Serials, n': Serials)
    requires LedgerHeld(reg, chainId, t, ledger)
    requires CoreOf(reg, chainId, f) == Some(core) && core.height == |ledger| + 1
    requires Fits(t, n, core, at, n')
    ensures EntriesHeld(reg, chainId, WithBlock(t, chainId, core, at), ledger + [f])
  {
    forall k | 0 <= k < |ledger + [f]|
      ensures EntryHeld(reg, chainId, WithBlock(t, chainId, core, at), (ledger + [f])[k], k + 1)
    {
      EntriesGrow(reg, chainId, t, ledger, f, core, n, at, n', k);
    }
  }

  lemma HeightsGrow(chainId: string, t: Tables, n: nat, core: BlockCore, at: Serials)
    requires HeightsOk(chainId, t, n) && chainId in t.chains && core.height == n + 1
    ensures HeightsOk(chainId, WithBlock(t, chainId, core, at), n + 1)
    ensures chainId in WithBlock(t, chainId, core, at).chains
  {}

  /** Adding the next block to tables that hold a ledger. */
  lemma LedgerGrows(reg: Registry, chainId: string, t: Tables, ledger: seq<Fetch>, f: Fetch, core: BlockCore,
                    n: Serials, at: Serials, n': Serials)
    requires LedgerHeld(reg, chainId, t, ledger) && chainId in t.chains
    requires CoreOf(reg, chainId, f) == Some(core) && core.height == |ledger| + 1
    requires Fits(t, n, core, at, n')
    ensures var t' := WithBlock(t, chainId, core, at);
            LedgerHeld(reg, chainId, t', ledger + [f]) && chainId in t'.chains
  {
    HeightsGrow(chainId, t, |ledger|, core, at);
    AllEntriesGrow(reg, chainId, t, ledger, f, core, n, at, n');
  }

  lemma EntryStays(reg: Registry, chainId: string, t: Tables, f: Fetch, height: int, core: BlockCore,
                   n: Serials, at: Serials, n': Serials)
    requires EntryHeld(reg, chainId, t, f, height) && Fits(t, n, core, at, n')
    ensures EntryHeld(reg, chainId, WithBlock(t, chainId, core, at), f, height)
  {
    var kept := CoreOf(reg, chainId, f).value;
    OldBlockHeld(t, n, chainId, core, at, n', kept);
    var o :| RowsStored(t, kept, o);
    OldRowsStored(t, n, chainId, core, at, n', kept, o);
  }

  lemma ChainsApart(t: Tables, chains: map<string, int>, core: BlockCore)
    requires HeldWhole(t, core)
    ensures HeldWhole(t.(chains := chains), core)
  {
    var u := t.(chains := chains);
    var o :| RowsStored(t, core, o);
    assert forall i: nat :: i < |core.transactions| ==> TxStored(t, core, o, i) ==> TxStored(u, core, o, i);
    assert forall i: nat :: i < |core.messages| ==> MessageStored(t, core, o, i) ==> MessageStored(u, core, o, i);
    assert forall i: nat :: i < |core.events| ==> EventStored(t, core, o, i) ==> EventStored(u, core, o, i);
    assert RowsStored(u, core, o);
    TxViewsApart(t, chains, FilterMap(TxAt(core.height), t.txs));
  }

  lemma TxViewsApart(t: Tables, chains: map<string, int>, rows: seq<TxRow>)
    ensures TxViews(t.(chains := chains), rows) == TxViews(t, rows)
  {}

  lemma BootKeeps(reg: Registry, chainId: string, w: World, i: Input)
    requires BaseOk(reg, chainId, w) && i.Boot?
    ensures BaseOk(reg, chainId, BootSpec(chainId, w, i))
  {
    var w' := BootSpec(chainId, w, i);
    forall k | 0 <= k < |w.ledger| ensures EntryHeld(reg, chainId, w'.db, w.ledger[k], k + 1) {
      assert EntryHeld(reg, chainId, w.db, w.ledger[k], k + 1);
      ChainsApart(w.db, w'.db.chains, CoreOf(reg, chainId, w.ledger[k]).value);
    }
  }

  lemma SettleKeeps(reg: Registry, chainId: string, w: World, committed: bool)
    requires BaseOk(reg, chainId, w)
    ensures BaseOk(reg, chainId, SettleSpec(w, committed))
  {
    if w.doubt.Some? && committed {
      var d := w.doubt.value;
      var core := CoreOf(reg, chainId, d.fetch).value;
      LedgerGrows(reg, chainId, w.db, w.ledger, d.fetch, core, d.before, d.at, w.serials);
      WithBlockConsistent(w.db, d.before, chainId, core, d.at, w.serials);
    }
  }

  /** The recorded height is the requested one. */
  lemma HeightInStep(reg: Registry, chainId: string, w: World, f: Fetch, choices: seq<Choice>)
    requires w.process.Up? && w.process.currentBlock >= 1 && NodeHonest(w, Iterate(f, choices))
    requires PlanSpec(reg, chainId, f).Proceed?
    ensures PlanSpec(reg, chainId, f).job.height == w.process.currentBlock
  {
    CoreOfPlan(reg, chainId, f);
    LowWordExact(w.process.currentBlock);
  }

  ghost predicate Attempting(reg: Registry, chainId: string, w: World, f: Fetch, job: Job) {
    && BaseOk(reg, chainId, w) && w.process.Up?
    && job.chainId == chainId && CoreOf(reg, chainId, f) == (if job.body.Store? then Some(job.body.core) else None)
    && job.height == w.process.currentBlock && JobOk(job)
  }

  /** What the invariant needs to know about an attempt, and what a COMMIT in doubt does to it. */
  ghost predicate Attempted(w: World, job: Job, a: Attempt) {
    && Outcome(job, w.db, w.serials, a) && (a.main == Resolved ==> a.applied)
    && (w.doubt.Some? ==> !a.applied && a.main != Resolved && InDoubt(a).None? && Abandoned(a) == [])
  }

  lemma AttemptedIn(w: World, job: Job, choices: seq<Choice>)
    requires JobOk(job) && Consistent(w.db, w.serials)
    requires w.doubt.None? ==> Spared(job, w.db, w.serials, choices)
    ensures Attempted(w, job, AttemptIn(w, job, choices))
  {
    if w.doubt.Some? {
      BlockedAttempt(job, w.db, w.serials, choices);
    } else {
      AllOrNothing(job, w.db, w.serials, choices);
      if AttemptIn(w, job, choices).main == Resolved { LostExactly(job, w.db, w.serials, choices); }
    }
  }

  lemma AppliedKeeps(reg: Registry, chainId: string, w: World, f: Fetch, job: Job, a: Attempt)
    requires Attempting(reg, chainId, w, f, job) && Attempted(w, job, a) && a.applied
    ensures BaseOk(reg, chainId, AfterRun(w, f, a))
  {
    var core := job.body.core;
    LedgerGrows(reg, chainId, w.db, w.ledger, f, core, w.serials, a.at, a.server.serials);
    WithBlockConsistent(w.db, w.serials, chainId, core, a.at, a.server.serials);
  }

  lemma UnappliedKeeps(reg: Registry, chainId: string, w: World, f: Fetch, job: Job, a: Attempt)
    requires Attempting(reg, chainId, w, f, job) && Attempted(w, job, a) && !a.applied
    ensures BaseOk(reg, chainId, AfterRun(w, f, a))
  {}

  lemma IterateKeeps(reg: Registry, chainId: string, w: World, f: Fetch, choices: seq<Choice>)
    requires BaseOk(reg, chainId, w) && Honest(reg, chainId, w, Iterate(f, choices))
    ensures BaseOk(reg, chainId, IterateSpec(reg, chainId, w, f, choices))
  {
    if w.process.Up? && PlanSpec(reg, chainId, f).Proceed? {
      var job := PlanSpec(reg, chainId, f).job;
      CoreOfPlan(reg, chainId, f);
      HeightInStep(reg, chainId, w, f, choices);
      AttemptedIn(w, job, choices);
      if AttemptIn(w, job, choices).applied {
        AppliedKeeps(reg, chainId, w, f, job, AttemptIn(w, job, choices));
      } else {
        UnappliedKeeps(reg, chainId, w, f, job, AttemptIn(w, job, choices));
      }
    }
  }

  // ---------------------------------------------------------- leftover statements

  /** A message without parent, now and when the commit in doubt is settled. */
  ghost predicate Orphan(w: World, m: LinkedMessage) {
    Fatherless(w.db, w.serials.tx, m) && (w.doubt.Some? ==> Fatherless(w.doubt.value.tables, w.serials.tx, m))
  }

  /** A statement that can do no harm outside a transaction: a message insert with an orphan, or an insert
      of transactions or events, about which only the moment decides. */
  ghost predicate Harmless(w: World, stmt: Stmt) {
    ChildInsert(stmt) && (stmt.InsertMessages? ==> exists m :: m in stmt.messages && Orphan(w, m))
  }

  ghost predicate LeftoversOk(w: World) {
    forall stmt :: stmt in w.leftovers ==> Harmless(w, stmt)
  }

  ghost predicate WorldOk(reg: Registry, chainId: string, w: World) {
    BaseOk(reg, chainId, w) && LeftoversOk(w)
  }

  /** Where `v` has only transaction ids that `w` had, committed or in doubt, or that were drawn later. */
  ghost predicate IdsGrow(w: World, v: World) {
    && w.serials.tx <= v.serials.tx
    && (forall id :: id in TxIds(v.db.txs) && id < w.serials.tx ==>
          id in TxIds(w.db.txs) || (w.doubt.Some? && id in TxIds(w.doubt.value.tables.txs)))
    && (v.doubt.Some? ==> forall id :: id in TxIds(v.doubt.value.tables.txs) && id < w.serials.tx ==>
          id in TxIds(w.db.txs) || (w.doubt.Some? && id in TxIds(w.doubt.value.tables.txs)))
  }

  lemma HarmlessStays(w: World, v: World, stmt: Stmt)
    requires Harmless(w, stmt) && IdsGrow(w, v)
    ensures Harmless(v, stmt)
  {
    if stmt.InsertMessages? {
      var m :| m in stmt.messages && Orphan(w, m);
      assert Orphan(v, m);
    }
  }

  /** Executing a leftover statement changes nothing: a message insert whenever it executes, the others as
      long as their height is not committed. */
  lemma LeftoverIsNoOp(w: World, stmt: Stmt, fault: bool)
    requires Harmless(w, stmt)
    requires stmt.InsertTransactions? || stmt.InsertEvents? ==> stmt.height !in w.db.blocks
    ensures var server := Exec(Server(w.db, Idle, w.serials), stmt, fault).0;
            server.committed == w.db && SerialsLeq(w.serials, server.serials)
  {
    if stmt.InsertMessages? {
      var m :| m in stmt.messages && Orphan(w, m);
    }
    LateInsertExact(Server(w.db, Idle, w.serials), stmt);
  }

  lemma TargetIds(job: Job, base: Tables, at: Serials, next: nat)
    requires job.body.Store? && next <= at.tx
    ensures forall id :: id in TxIds(Target(job, base, at).txs) && id < next ==> id in TxIds(base.txs)
  {
    var core := job.body.core;
    TxIdsConcat(base.txs, TxRows(core.transactions, at.tx, core.time, core.height));
  }

  lemma RunIdsGrow(w: World, f: Fetch, job: Job, a: Attempt)
    requires w.process.Up? && Attempted(w, job, a)
    ensures IdsGrow(w, AfterRun(w, f, a))
  {
    if a.applied || InDoubt(a).Some? {
      TargetIds(job, w.db, a.at, w.serials.tx);
    }
  }

  lemma NextIdsGrow(reg: Registry, chainId: string, w: World, i: Input)
    requires Consistent(w.db, w.serials) && LeftoversOk(w) && Honest(reg, chainId, w, i)
    ensures IdsGrow(w, Next(reg, chainId, w, i))
  {
    if i.Leftover? && i.which < |w.leftovers| {
      LeftoverIsNoOp(w, w.leftovers[i.which], i.fault);
    }
    if i.Iterate? && w.process.Up? && PlanSpec(reg, chainId, i.fetch).Proceed? {
      var job := PlanSpec(reg, chainId, i.fetch).job;
      CoreOfPlan(reg, chainId, i.fetch);
      AttemptedIn(w, job, i.choices);
      RunIdsGrow(w, i.fetch, job, AttemptIn(w, job, i.choices));
    }
  }

  /** What an attempt adds to the leftovers is harmless. */
  lemma AbandonedHarmless(w: World, f: Fetch, job: Job, choices: seq<Choice>, i: nat)
    requires w.process.Up? && w.doubt.None? && JobOk(job) && Consistent(w.db, w.serials)
    requires i < |Abandoned(Run(job, Start(w.db, w.serials), choices))|
    ensures var a := Run(job, Start(w.db, w.serials), choices); Harmless(AfterRun(w, f, a), Abandoned(a)[i])
  {
    var a := Run(job, Start(w.db, w.serials), choices);
    AbandonedFatherless(job, w.db, w.serials, choices, i);
    ConnectionSafety(job, w.db, w.serials, choices);
    assert InDoubt(a).None?;
    var stmt := Abandoned(a)[i];
    if stmt.InsertMessages? {
      var m :| m in stmt.messages && Fatherless(a.server.committed, a.server.serials.tx, m);
      assert Orphan(AfterRun(w, f, a), m);
    }
  }

  lemma AttemptLeftoversOk(w: World, f: Fetch, job: Job, choices: seq<Choice>)
    requires w.process.Up? && JobOk(job) && Consistent(w.db, w.serials) && LeftoversOk(w)
    requires w.doubt.None? ==> Spared(job, w.db, w.serials, choices)
    ensures LeftoversOk(AfterRun(w, f, AttemptIn(w, job, choices)))
  {
    var a := AttemptIn(w, job, choices);
    var v := AfterRun(w, f, a);
    AttemptedIn(w, job, choices);
    RunIdsGrow(w, f, job, a);
    forall stmt | stmt in v.leftovers ensures Harmless(v, stmt) {
      if stmt in w.leftovers {
        HarmlessStays(w, v, stmt);
      } else {
        var i :| 0 <= i < |Abandoned(a)| && Abandoned(a)[i] == stmt;
        AbandonedHarmless(w, f, job, choices, i);
      }
    }
  }

  lemma KeptLeftoversOk(w: World, v: World)
    requires LeftoversOk(w) && IdsGrow(w, v) && forall stmt :: stmt in v.leftovers ==> stmt in w.leftovers
    ensures LeftoversOk(v)
  {
    forall stmt | stmt in v.leftovers ensures Harmless(v, stmt) { HarmlessStays(w, v, stmt); }
  }

  lemma NextLeftoversOk(reg: Registry, chainId: string, w: World, i: Input)
    requires Consistent(w.db, w.serials) && LeftoversOk(w) && Honest(reg, chainId, w, i)
    ensures LeftoversOk(Next(reg, chainId, w, i))
  {
    if i.Iterate? && w.process.Up? && PlanSpec(reg, chainId, i.fetch).Proceed? {
      CoreOfPlan(reg, chainId, i.fetch);
      AttemptLeftoversOk(w, i.fetch, PlanSpec(reg, chainId, i.fetch).job, i.choices);
    } else {
      NextIdsGrow(reg, chainId, w, i);
      KeptLeftoversOk(w, Next(reg, chainId, w, i));
    }
  }

  // ------------------------------------------------------------------ whole runs

  lemma LeftoverKeeps(reg: Registry, chainId: string, w: World, which: nat, fault: bool)
    requires WorldOk(reg, chainId, w) && Honest(reg, chainId, w, Leftover(which, fault))
    ensures var v := Next(reg, chainId, w, Leftover(which, fault));
            v.db == w.db && v == w.(serials := v.serials, leftovers := v.leftovers) && BaseOk(reg, chainId, v)
  {
    if which < |w.leftovers| {
      LeftoverIsNoOp(w, w.leftovers[which], fault);
    }
  }

  lemma NextKeeps(reg: Registry, chainId: string, w: World, i: Input)
    requires WorldOk(reg, chainId, w) && Honest(reg, chainId, w, i)
    ensures WorldOk(reg, chainId, Next(reg, chainId, w, i))
  {
    NextLeftoversOk(reg, chainId, w, i);
    match i
    case Boot(_, _, _, _) => BootKeeps(reg, chainId, w, i);
    case Iterate(f, choices) => IterateKeeps(reg, chainId, w, f, choices);
    case Kill =>
    case Settle(committed) => SettleKeeps(reg, chainId, w, committed);
    case Leftover(which, fault) => LeftoverKeeps(reg, chainId, w, which, fault);
  }

  lemma {:induction false} EvolveKeeps(reg: Registry, chainId: string, w: World, inputs: seq<Input>)
    requires WorldOk(reg, chainId, w) && HonestRun(reg, chainId, w, inputs)
    ensures WorldOk(reg, chainId, Evolve(reg, chainId, w, inputs))
  {
    if inputs == [] {
    } else {
      var front := inputs[..|inputs| - 1];
      EvolveKeeps(reg, chainId, w, front);
      NextKeeps(reg, chainId, Evolve(reg, chainId, w, front), inputs[|inputs| - 1]);
    }
  }

  lemma FreshOk(reg: Registry, chainId: string, w: World)
    requires Fresh(w)
    ensures WorldOk(reg, chainId, w)
  {}
}
