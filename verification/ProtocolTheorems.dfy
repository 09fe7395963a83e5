/** The guarantees of one attempt, over every interleaving of its tasks, timers, faults and readers. */
module ProtocolTheorems {
  import opened Prelude
  import opened RawData
  import opened Database
  import opened BlockSync
  import opened BlockStore
  import opened BlockQuery
  import opened CommitProtocol
  import opened ProtocolProofs
  import opened SharedClient

  /** The tables a COMMIT still in flight would produce when the connection is given up now. */
  function InDoubt(a: Attempt): Option<Tables> {
    if a.queue != [] && a.queue[0].stmt.Commit? && a.server.session.Open? then Some(a.server.session.work) else None
  }

  /** What an attempt may have done to the database: before COMMIT takes effect the committed tables are
      those of `base`, afterwards those with exactly this whole block and its checkpoint. A reported success
      means the latter unless a read has failed in the open transaction, and then it never means it. An
      in-flight COMMIT can only produce the latter. */
  ghost predicate Outcome(job: Job, base: Tables, n: Serials, a: Attempt) {
    && SerialsLeq(n, a.server.serials)
    && (!a.applied ==> a.server.committed == base)
    && (a.applied ==> job.body.Store? && Fits(base, n, job.body.core, a.at, a.server.serials) &&
                      a.server.committed == Target(job, base, a.at))
    && (a.main == Resolved ==> (a.applied <==> !a.spoiled))
    && (InDoubt(a).Some? ==> !a.applied && job.body.Store? && Fits(base, n, job.body.core, a.at, a.server.serials) &&
                             InDoubt(a).value == Target(job, base, a.at))
  }

  lemma MirroredOutcome(job: Job, base: Tables, n: Serials, a: Attempt, b: Attempt)
    requires Inv(job, base, n, b) && Mirrors(a, b)
    ensures Outcome(job, base, n, a)
  {
    if a.queue != [] && a.queue[0].stmt.Commit? { OwnHeadOk(job, base, n, a, b); }
  }

  lemma SharedOutcome(job: Job, base: Tables, n: Serials, a: Attempt)
    requires SharedInv(job, base, n, a)
    ensures Outcome(job, base, n, a)
  {
    if !Lost(job, base, n, a) {
      var b :| Inv(job, base, n, b) && Mirrors(a, b);
      MirroredOutcome(job, base, n, a, b);
    }
  }

  lemma AllOrNothing(job: Job, base: Tables, n: Serials, choices: seq<Choice>)
    requires JobOk(job) && Consistent(base, n)
    ensures Outcome(job, base, n, Run(job, Start(base, n), choices))
  {
    RunKeeps(job, base, n, choices);
    SharedOutcome(job, base, n, Run(job, Start(base, n), choices));
  }

  /** An attempt that cannot store its block: the height is there already, or its body throws. */
  lemma HopelessAttempt(job: Job, base: Tables, n: Serials, choices: seq<Choice>)
    requires JobOk(job) && Consistent(base, n)
    requires job.height in base.blocks || !job.body.Store?
    ensures var a := Run(job, Start(base, n), choices);
            a.server.committed == base && a.main != Resolved && InDoubt(a).None?
  {
    RunKeeps(job, base, n, choices);
    AllOrNothing(job, base, n, choices);
  }

  ghost predicate GivenUp(a: Attempt) {
    a.main.Thrown? && forall i :: 0 <= i < |a.queue| ==> !a.queue[i].stmt.Commit?
  }

  lemma GivenUpExecutes(job: Job, base: Tables, n: Serials, a: Attempt, b: Attempt, fault: bool, gap: Serials)
    requires Inv(job, base, n, b) && Mirrors(a, b) && GivenUp(a) && a.queue != []
    ensures var a1 := Executed(a, fault, gap).0;
            && a1.server.committed == a.server.committed && a1.main == a.main
            && (forall i :: 0 <= i < |a1.queue| ==> !a1.queue[i].stmt.Commit?)
    ensures a.queue[0].waiter in {Nobody, Reader, Inserter, Updater}
  {
    var a1 := Executed(a, fault, gap).0;
    assert forall i :: 0 <= i < |a1.queue| ==> a1.queue[i] == a.queue[i + 1];
    if !a.queue[0].stmt.Read? {
      OwnHeadOk(job, base, n, a, b);
      if ChildInsert(a.queue[0].stmt) && a.server.session.Idle? {
        LateInsertExact(a.server.(serials := Skip(a.server.serials, gap)), a.queue[0].stmt);
      }
    }
  }

  /** The tasks of a given-up attempt never send a COMMIT. */
  lemma GivenUpResumes(job: Job, a: Attempt, w: Waiter, stmt: Stmt, reply: Reply)
    requires GivenUp(a) && w in {Nobody, Reader, Inserter, Updater}
    ensures GivenUp(Resume(job, a, w, stmt, reply)) && Resume(job, a, w, stmt, reply).server == a.server
  {}

  lemma GivenUpExpires(job: Job, base: Tables, n: Serials, a: Attempt, b: Attempt, k: nat, withdraw: bool)
    requires Inv(job, base, n, b) && Mirrors(a, b) && GivenUp(a) && k < |a.queue| && a.queue[k].waiter != Nobody
    ensures var a1 := Step(job, a, Expire(k, withdraw)); GivenUp(a1) && a1.server.committed == a.server.committed
  {
    if !a.queue[k].stmt.Read? { OwnEntryOk(job, base, n, a, b, k); }
    ExpiredEntries(a, k, withdraw);
    GivenUpResumes(job, Expired(a, k, withdraw), a.queue[k].waiter, a.queue[k].stmt, Error);
  }

  lemma GivenUpStep(job: Job, base: Tables, n: Serials, a: Attempt, c: Choice)
    requires SharedInv(job, base, n, a) && GivenUp(a)
    ensures GivenUp(Step(job, a, c)) && Step(job, a, c).server.committed == a.server.committed
  {
    var b :| Inv(job, base, n, b) && Mirrors(a, b);
    match c
    case Execute(fault, gap) =>
      if a.queue != [] {
        GivenUpExecutes(job, base, n, a, b, fault, gap);
        var (a1, reply) := Executed(a, fault, gap);
        GivenUpResumes(job, a1, a.queue[0].waiter, a.queue[0].stmt, reply);
      }
    case Expire(k, withdraw) =>
      if k < |a.queue| && a.queue[k].waiter != Nobody { GivenUpExpires(job, base, n, a, b, k, withdraw); }
    case Continue =>
    case Ask(_) =>
  }

  lemma {:induction false} FinalFrom(job: Job, base: Tables, n: Serials, a: Attempt, more: seq<Choice>)
    requires JobOk(job) && Consistent(base, n) && SharedInv(job, base, n, a) && GivenUp(a)
    ensures var b := Run(job, a, more);
            SharedInv(job, base, n, b) && GivenUp(b) && b.server.committed == a.server.committed
  {
    if more == [] {
    } else {
      var front, c := more[..|more| - 1], more[|more| - 1];
      FinalFrom(job, base, n, a, front);
      var b := Run(job, a, front);
      GivenUpStep(job, base, n, b, c);
      StepKeeps(job, base, n, b, c);
    }
  }

  /** Rollback is final: once the wrapper has thrown and no COMMIT is in flight, whatever the abandoned
      tasks still send behind the ROLLBACK, and whatever is still executed, changes nothing. */
  lemma RollbackIsFinal(job: Job, base: Tables, n: Serials, choices: seq<Choice>, more: seq<Choice>)
    requires JobOk(job) && Consistent(base, n)
    requires GivenUp(Run(job, Start(base, n), choices))
    ensures var a := Run(job, Start(base, n), choices);
            var b := Run(job, a, more);
            b.server.committed == a.server.committed && (!a.applied ==> b.server.committed == base) && GivenUp(b)
  {
    RunKeeps(job, base, n, choices);
    FinalFrom(job, base, n, Run(job, Start(base, n), choices), more);
  }

  lemma LeftoverHasNoParent(job: Job, base: Tables, n: Serials, a: Attempt, i: nat)
    requires SharedInv(job, base, n, a) && a.main.Thrown? && !a.destroyed && i < |a.queue|
    ensures a.queue[i].stmt.Read? ||
            (ChildInsert(a.queue[i].stmt) && ParentMissing(a.server.committed, a.queue[i].stmt))
  {
    var b :| Inv(job, base, n, b) && Mirrors(a, b);
    if !a.queue[i].stmt.Read? { OwnEntryOk(job, base, n, a, b, i); }
  }

  /** What a failed attempt leaves on a connection that went back to the pool are child inserts without a
      committed parent, and reads. */
  lemma LeftoversHaveNoParent(job: Job, base: Tables, n: Serials, choices: seq<Choice>)
    requires JobOk(job) && Consistent(base, n)
    ensures var a := Run(job, Start(base, n), choices);
            a.main.Thrown? && !a.destroyed ==>
              forall i :: 0 <= i < |a.queue| ==>
                || a.queue[i].stmt.Read?
                || (ChildInsert(a.queue[i].stmt) && ParentMissing(a.server.committed, a.queue[i].stmt))
  {
    RunKeeps(job, base, n, choices);
    var a := Run(job, Start(base, n), choices);
    forall i | 0 <= i < |a.queue| && a.main.Thrown? && !a.destroyed
      ensures a.queue[i].stmt.Read? ||
              (ChildInsert(a.queue[i].stmt) && ParentMissing(a.server.committed, a.queue[i].stmt))
    {
      LeftoverHasNoParent(job, base, n, a, i);
    }
  }

  /** Once the wrapper has thrown, no activity of the attempt sends another statement: but for readers the
      queue only loses entries. All its statements are thus sent while `currentPool` is its own client. */
  lemma NothingSentAfterThrow(job: Job, base: Tables, n: Serials, choices: seq<Choice>, c: Choice)
    requires JobOk(job) && Consistent(base, n)
    requires Run(job, Start(base, n), choices).main.Thrown?
    ensures var a := Run(job, Start(base, n), choices);
            Step(job, a, c).queue ==
              match c
              case Execute(_, _) => if a.queue == [] then [] else a.queue[1..]
              case Expire(k, withdraw) =>
                if k < |a.queue| && a.queue[k].waiter != Nobody then Expired(a, k, withdraw).queue else a.queue
              case Continue => a.queue
              case Ask(request) => if CurrentPool(a) then a.queue + [Entry(Read(request), Reader)] else a.queue
  {
    RunKeeps(job, base, n, choices);
    var a := Run(job, Start(base, n), choices);
    var b :| Inv(job, base, n, b) && Mirrors(a, b);
    match c
    case Execute(fault, gap) => ThrownExecutes(job, base, n, a, b, fault, gap);
    case Expire(k, withdraw) => ThrownExpires(job, base, n, a, b, k, withdraw);
    case Continue =>
    case Ask(_) =>
  }

  lemma ThrownExpires(job: Job, base: Tables, n: Serials, a: Attempt, b: Attempt, k: nat, withdraw: bool)
    requires Inv(job, base, n, b) && Mirrors(a, b) && a.main.Thrown?
    ensures k < |a.queue| && a.queue[k].waiter != Nobody ==>
              Step(job, a, Expire(k, withdraw)).queue == Expired(a, k, withdraw).queue
  {
    if k < |a.queue| && !a.queue[k].stmt.Read? { OwnEntryOk(job, base, n, a, b, k); }
  }

  /** A task of a thrown attempt is never resumed with a success, so it never goes on. */
  lemma ThrownExecutes(job: Job, base: Tables, n: Serials, a: Attempt, b: Attempt, fault: bool, gap: Serials)
    requires Inv(job, base, n, b) && Mirrors(a, b) && a.main.Thrown?
    ensures a.queue != [] ==> Step(job, a, Execute(fault, gap)).queue == a.queue[1..]
  {
    if a.queue != [] && !a.queue[0].stmt.Read? && a.queue[0].waiter != Nobody {
      OwnHeadOk(job, base, n, a, b);
      LateInsertExact(a.server.(serials := Skip(a.server.serials, gap)), a.queue[0].stmt);
      assert Executed(a, fault, gap).1.Error?;
    }
  }

  // -------------------------------------------------------------- what is left over

  /** The statements of its own that an attempt leaves on a client that goes back to the pool. */
  function Abandoned(a: Attempt): seq<Stmt> {
    if a.main.Thrown? && !a.destroyed then FilterMap(OwnStmt, a.queue) else []
  }

  const OwnStmt: Entry -> Option<Stmt> := (e: Entry) => if e.stmt.Read? then None else Some(e.stmt)

  /** Every parent id of a message insert was drawn from the sequence before. */
  ghost predicate IdsDrawn(stmt: Stmt, next: nat) {
    stmt.InsertMessages? ==>
      forall m :: m in stmt.messages ==> m.transactionId.Some? ==> m.transactionId.value < next
  }

  ghost predicate QueueDrawn(a: Attempt) {
    forall i :: 0 <= i < |a.queue| ==> IdsDrawn(a.queue[i].stmt, a.server.serials.tx)
  }

  lemma {:induction false} IdMapBelow(rows: seq<(nat, nat)>, next: nat)
    requires forall i :: 0 <= i < |rows| ==> rows[i].1 < next
    ensures forall k :: k in IdMap(rows) ==> IdMap(rows)[k] < next
  {
    if rows == [] {
    } else {
      IdMapBelow(rows[..|rows| - 1], next);
    }
  }

  lemma LinkBelow(messages: seq<MessageCore>, ids: map<nat, nat>, next: nat, height: int)
    requires forall k :: k in ids ==> ids[k] < next
    ensures IdsDrawn(InsertMessages(Link(messages, ids), height), next)
  {}

  lemma MainDrawn(job: Job, a: Attempt, stmt: Stmt, reply: Reply)
    requires QueueDrawn(a)
    ensures QueueDrawn(Resume(job, a, Main, stmt, reply))
  {}

  lemma InserterDrawn(job: Job, a: Attempt, stmt: Stmt, reply: Reply)
    requires QueueDrawn(a)
    requires reply.Ok? ==> forall i :: 0 <= i < |reply.rows| ==> reply.rows[i].1 < a.server.serials.tx
    ensures QueueDrawn(Resume(job, a, Inserter, stmt, reply))
  {
    if reply.Ok? && a.insert == AwaitTransactions && job.body.Store? {
      IdMapBelow(reply.rows, a.server.serials.tx);
      LinkBelow(job.body.core.messages, IdMap(reply.rows), a.server.serials.tx, job.body.core.height);
    }
  }

  lemma ResumeDrawn(job: Job, a: Attempt, w: Waiter, stmt: Stmt, reply: Reply)
    requires QueueDrawn(a)
    requires reply.Ok? ==> forall i :: 0 <= i < |reply.rows| ==> reply.rows[i].1 < a.server.serials.tx
    ensures QueueDrawn(Resume(job, a, w, stmt, reply))
  {
    match w
    case Main => MainDrawn(job, a, stmt, reply);
    case Inserter => InserterDrawn(job, a, stmt, reply);
    case _ =>
  }

  lemma ExecutedDrawn(a: Attempt, fault: bool, gap: Serials)
    requires QueueDrawn(a) && a.queue != []
    ensures var (a1, reply) := Executed(a, fault, gap);
            && QueueDrawn(a1)
            && (reply.Ok? ==> forall i :: 0 <= i < |reply.rows| ==> reply.rows[i].1 < a1.server.serials.tx)
  {
    var a1 := Executed(a, fault, gap).0;
    forall i | 0 <= i < |a1.queue| ensures IdsDrawn(a1.queue[i].stmt, a1.server.serials.tx) {
      assert IdsDrawn(a.queue[i + 1].stmt, a.server.serials.tx);
    }
  }

  lemma StepDrawn(job: Job, a: Attempt, c: Choice)
    requires QueueDrawn(a)
    ensures QueueDrawn(Step(job, a, c))
  {
    match c
    case Execute(fault, gap) =>
      if a.queue != [] {
        ExecutedDrawn(a, fault, gap);
        var (a1, reply) := Executed(a, fault, gap);
        ResumeDrawn(job, a1, a.queue[0].waiter, a.queue[0].stmt, reply);
      }
    case Expire(k, withdraw) =>
      if k < |a.queue| && a.queue[k].waiter != Nobody {
        ExpiredEntries(a, k, withdraw);
        ResumeDrawn(job, Expired(a, k, withdraw), a.queue[k].waiter, a.queue[k].stmt, Error);
      }
    case Continue =>
    case Ask(_) =>
  }

  lemma {:induction false} RunDrawn(job: Job, base: Tables, n: Serials, choices: seq<Choice>)
    ensures QueueDrawn(Run(job, Start(base, n), choices))
  {
    if choices == [] {
    } else {
      RunDrawn(job, base, n, choices[..|choices| - 1]);
      StepDrawn(job, Run(job, Start(base, n), choices[..|choices| - 1]), choices[|choices| - 1]);
    }
  }

  /** A message whose parent row does not exist and, its id having been drawn, never will. */
  ghost predicate Fatherless(t: Tables, next: nat, m: LinkedMessage) {
    m.transactionId.None? || (m.transactionId.value < next && m.transactionId.value !in TxIds(t.txs))
  }

  lemma AbandonedFatherless(job: Job, base: Tables, n: Serials, choices: seq<Choice>, i: nat)
    requires JobOk(job) && Consistent(base, n)
    requires i < |Abandoned(Run(job, Start(base, n), choices))|
    ensures var a := Run(job, Start(base, n), choices);
            var stmt := Abandoned(a)[i];
            && ChildInsert(stmt) && ParentMissing(a.server.committed, stmt)
            && (stmt.InsertMessages? ==>
                  exists m :: m in stmt.messages && Fatherless(a.server.committed, a.server.serials.tx, m))
  {
    var a := Run(job, Start(base, n), choices);
    LeftoversHaveNoParent(job, base, n, choices);
    RunDrawn(job, base, n, choices);
    FilterMapSource(OwnStmt, a.queue, i);
    var stmt := Abandoned(a)[i];
    var k :| 0 <= k < |a.queue| && OwnStmt(a.queue[k]) == Some(stmt);
    assert IdsDrawn(a.queue[k].stmt, a.server.serials.tx);
    if stmt.InsertMessages? {
      var m :| m in stmt.messages && (m.transactionId.None? || m.transactionId.value !in TxIds(a.server.committed.txs));
      assert Fatherless(a.server.committed, a.server.serials.tx, m);
    }
  }

  /** COMMIT is only ever executed when both tasks have ended, on the open transaction that holds the
      complete block or, exactly when a read has failed in it, on an aborted one. */
  lemma CommitOnlyWhenWhole(job: Job, base: Tables, n: Serials, choices: seq<Choice>)
    requires JobOk(job) && Consistent(base, n)
    ensures var a := Run(job, Start(base, n), choices);
            a.queue != [] && a.queue[0].stmt.Commit? ==>
              && job.body.Store? && a.insert == InsertDone && a.update == UpdateDone
              && a.server.session == if a.spoiled then Failed else Open(Target(job, base, a.at))
  {
    RunKeeps(job, base, n, choices);
    var a := Run(job, Start(base, n), choices);
    if !Lost(job, base, n, a) {
      var b :| Inv(job, base, n, b) && Mirrors(a, b);
      if a.queue != [] && a.queue[0].stmt.Commit? { OwnHeadOk(job, base, n, a, b); }
    } else if a.queue != [] {
      OwnHead(a.queue);
    }
  }

  // ------------------------------------------------- while another COMMIT is in doubt

  /** Neither task has got past its first statement. */
  ghost predicate Barred(a: Attempt) {
    && !PastBlock(a.insert) && a.update != UpdateDone
    && (forall i :: 0 <= i < |a.queue| ==> !ChildInsert(a.queue[i].stmt))
  }

  lemma BarredBody(job: Job, a: Attempt)
    requires Barred(a)
    ensures Barred(StartBody(job, a))
  {}

  lemma BarredRollback(a: Attempt, cause: Failure)
    requires Barred(a)
    ensures Barred(ToRollback(a, cause)) && Barred(Destroy(a, cause))
  {}

  lemma BarredMain(job: Job, base: Tables, a: Attempt, stmt: Stmt, reply: Reply)
    requires Barred(a)
    ensures Barred(Resume(job, a, Main, stmt, reply))
  {
    if reply.Ok? {
      BarredBody(job, a);
    } else {
      BarredRollback(Reject(a, Rejected(stmt)), Rejected(stmt));
      if a.main.AwaitRollback? { BarredRollback(Reject(a, Rejected(stmt)), a.main.cause); }
    }
  }

  lemma BarredResume(job: Job, base: Tables, a: Attempt, e: Entry, reply: Reply)
    requires Barred(a) && EntryOk(job, base, a, e) && !ChildInsert(e.stmt)
    requires NeedsLock(e.stmt) ==> reply.Error?
    ensures Barred(Resume(job, a, e.waiter, e.stmt, reply))
  {
    if e.waiter == Main { BarredMain(job, base, a, e.stmt, reply); }
  }

  lemma BarredExecutes(job: Job, base: Tables, n: Serials, a: Attempt, b: Attempt, c: Choice)
    requires Inv(job, base, n, b) && Mirrors(a, b) && Barred(a) && c.Execute? && a.queue != []
    ensures Barred(Step(job, a, Blocked(a, c)))
  {
    var (a1, reply) := Executed(a, Blocked(a, c).fault, c.gap);
    assert forall i :: 0 <= i < |a1.queue| ==> a1.queue[i] == a.queue[i + 1];
    if !a.queue[0].stmt.Read? {
      OwnHeadOk(job, base, n, a, b);
      BarredResume(job, base, a1, a.queue[0], reply);
    }
  }

  lemma BarredExpires(job: Job, base: Tables, n: Serials, a: Attempt, b: Attempt, k: nat, withdraw: bool)
    requires Inv(job, base, n, b) && Mirrors(a, b) && Barred(a) && k < |a.queue| && a.queue[k].waiter != Nobody
    ensures Barred(Step(job, a, Expire(k, withdraw)))
  {
    ExpiredEntries(a, k, withdraw);
    if !a.queue[k].stmt.Read? {
      OwnEntryOk(job, base, n, a, b, k);
      BarredResume(job, base, Expired(a, k, withdraw), a.queue[k], Error);
    }
  }

  lemma BarredStep(job: Job, base: Tables, n: Serials, a: Attempt, c: Choice)
    requires SharedInv(job, base, n, a) && Barred(a)
    ensures Barred(Step(job, a, Blocked(a, c)))
  {
    var b :| Inv(job, base, n, b) && Mirrors(a, b);
    match c
    case Execute(_, _) => if a.queue != [] { BarredExecutes(job, base, n, a, b, c); }
    case Expire(k, withdraw) =>
      if k < |a.queue| && a.queue[k].waiter != Nobody { BarredExpires(job, base, n, a, b, k, withdraw); }
    case Continue =>
    case Ask(_) =>
  }

  lemma {:induction false} BarredRun(job: Job, base: Tables, n: Serials, choices: seq<Choice>)
      returns (same: seq<Choice>)
    requires JobOk(job) && Consistent(base, n)
    ensures RunBlocked(job, Start(base, n), choices) == Run(job, Start(base, n), same)
    ensures Barred(RunBlocked(job, Start(base, n), choices))
  {
    if choices == [] {
      same := [];
    } else {
      var c := choices[|choices| - 1];
      var front := BarredRun(job, base, n, choices[..|choices| - 1]);
      var a := Run(job, Start(base, n), front);
      RunKeeps(job, base, n, front);
      BarredStep(job, base, n, a, c);
      RunSnoc(job, Start(base, n), front, Blocked(a, c));
      same := front + [Blocked(a, c)];
    }
  }

  /** An attempt that cannot get the locks fails without a trace: nothing is committed, no COMMIT is sent
      and nothing is left over. */
  lemma BlockedAttempt(job: Job, base: Tables, n: Serials, choices: seq<Choice>)
    requires JobOk(job) && Consistent(base, n)
    ensures var a := RunBlocked(job, Start(base, n), choices);
            && Outcome(job, base, n, a) && !a.applied && a.main != Resolved
            && InDoubt(a).None? && Abandoned(a) == []
  {
    var same := BarredRun(job, base, n, choices);
    AllOrNothing(job, base, n, same);
    RunKeeps(job, base, n, same);
    BarredOutcome(job, base, n, Run(job, Start(base, n), same));
  }

  lemma BarredOutcome(job: Job, base: Tables, n: Serials, a: Attempt)
    requires SharedInv(job, base, n, a) && Barred(a)
    ensures !a.applied && a.main != Resolved && InDoubt(a).None? && Abandoned(a) == []
  {
    var b :| Inv(job, base, n, b) && Mirrors(a, b);
    if a.queue != [] && a.queue[0].stmt.Commit? { OwnHeadOk(job, base, n, a, b); }
    if a.main.Thrown? && !a.destroyed {
      forall i | 0 <= i < |a.queue| ensures OwnStmt(a.queue[i]).None? {
        LeftoverHasNoParent(job, base, n, a, i);
      }
      FilterMapNone(OwnStmt, a.queue);
    }
  }

  // ---------------------------------------------------------------- the connection

  lemma DestroyedResume(job: Job, a: Attempt, w: Waiter, stmt: Stmt, reply: Reply)
    requires a.destroyed <==> Rejected(Rollback) in a.rejections
    requires w == Main ==> !a.destroyed && (stmt.Rollback? <==> a.main.AwaitRollback?)
    requires w in {Inserter, Updater} ==> !stmt.Rollback?
    ensures var b := Resume(job, a, w, stmt, reply); b.destroyed <==> Rejected(Rollback) in b.rejections
  {}

  lemma DestroyedExecutes(job: Job, base: Tables, n: Serials, a: Attempt, b: Attempt, fault: bool, gap: Serials)
    requires Inv(job, base, n, b) && Mirrors(a, b) && a.queue != []
    requires a.destroyed <==> Rejected(Rollback) in a.rejections
    ensures var a1 := Step(job, a, Execute(fault, gap)); a1.destroyed <==> Rejected(Rollback) in a1.rejections
  {
    if !a.queue[0].stmt.Read? {
      OwnHeadOk(job, base, n, a, b);
      var (a1, reply) := Executed(a, fault, gap);
      DestroyedResume(job, a1, a.queue[0].waiter, a.queue[0].stmt, reply);
    }
  }

  lemma DestroyedExpires(job: Job, base: Tables, n: Serials, a: Attempt, b: Attempt, k: nat, withdraw: bool)
    requires Inv(job, base, n, b) && Mirrors(a, b) && k < |a.queue| && a.queue[k].waiter != Nobody
    requires a.destroyed <==> Rejected(Rollback) in a.rejections
    ensures var a1 := Step(job, a, Expire(k, withdraw)); a1.destroyed <==> Rejected(Rollback) in a1.rejections
  {
    if !a.queue[k].stmt.Read? {
      var i := OwnIndex(a.queue, k);
      OwnEntryOk(job, base, n, a, b, k);
      DestroyedResume(job, Expired(a, k, withdraw), a.queue[k].waiter, a.queue[k].stmt, Error);
    }
  }

  lemma DestroyedStep(job: Job, base: Tables, n: Serials, a: Attempt, c: Choice)
    requires SharedInv(job, base, n, a) && (a.destroyed <==> Rejected(Rollback) in a.rejections)
    ensures var b := Step(job, a, c); b.destroyed <==> Rejected(Rollback) in b.rejections
  {
    if Lost(job, base, n, a) {
      LostStep(job, base, n, a, c);
    } else {
      var b :| Inv(job, base, n, b) && Mirrors(a, b);
      match c
      case Execute(fault, gap) => if a.queue != [] { DestroyedExecutes(job, base, n, a, b, fault, gap); }
      case Expire(k, withdraw) =>
        if k < |a.queue| && a.queue[k].waiter != Nobody { DestroyedExpires(job, base, n, a, b, k, withdraw); }
      case Continue =>
      case Ask(_) =>
    }
  }

  lemma {:induction false} DestroyedExactly(job: Job, base: Tables, n: Serials, choices: seq<Choice>)
    requires JobOk(job) && Consistent(base, n)
    ensures var a := Run(job, Start(base, n), choices); a.destroyed <==> Rejected(Rollback) in a.rejections
  {
    if choices == [] {
    } else {
      var front := choices[..|choices| - 1];
      DestroyedExactly(job, base, n, front);
      RunKeeps(job, base, n, front);
      DestroyedStep(job, base, n, Run(job, Start(base, n), front), choices[|choices| - 1]);
    }
  }

  /** On a destroyed client at most the statement under way is left, and nobody waits for it. */
  ghost predicate OneUnderWay(a: Attempt) {
    a.destroyed ==> |a.queue| <= 1 && forall e :: e in a.queue ==> e.waiter == Nobody
  }

  lemma UnderWayResume(job: Job, a: Attempt, w: Waiter, stmt: Stmt, reply: Reply)
    requires OneUnderWay(a) && (a.destroyed ==> w == Nobody)
    ensures OneUnderWay(Resume(job, a, w, stmt, reply))
  {}

  lemma UnderWayStep(job: Job, a: Attempt, c: Choice)
    requires OneUnderWay(a) && (a.destroyed ==> a.main.Thrown?)
    ensures OneUnderWay(Step(job, a, c))
  {
    match c
    case Execute(fault, gap) =>
      if a.queue != [] {
        assert a.queue[0] in a.queue && forall e :: e in a.queue[1..] ==> e in a.queue;
        var (a1, reply) := Executed(a, fault, gap);
        UnderWayResume(job, a1, a.queue[0].waiter, a.queue[0].stmt, reply);
      }
    case Expire(k, withdraw) =>
      if k < |a.queue| && a.queue[k].waiter != Nobody {
        assert a.queue[k] in a.queue;
        UnderWayResume(job, Expired(a, k, withdraw), a.queue[k].waiter, a.queue[k].stmt, Error);
      }
    case Continue =>
    case Ask(_) =>
  }

  lemma {:induction false} UnderWayRun(job: Job, base: Tables, n: Serials, choices: seq<Choice>)
    requires JobOk(job) && Consistent(base, n)
    ensures OneUnderWay(Run(job, Start(base, n), choices))
  {
    if choices == [] {
    } else {
      var front := choices[..|choices| - 1];
      UnderWayRun(job, base, n, front);
      RunKeeps(job, base, n, front);
      UnderWayStep(job, Run(job, Start(base, n), front), choices[|choices| - 1]);
    }
  }

  /** The client is released exactly once, when the wrapper ends; a client that goes back to the pool has
      no open or aborted transaction, then and in every later state; it is destroyed exactly when its
      ROLLBACK was rejected, and then at most the statement under way is left on it; and the caller sees the
      first rejection, never that of the ROLLBACK. */
  lemma ConnectionSafety(job: Job, base: Tables, n: Serials, choices: seq<Choice>)
    requires JobOk(job) && Consistent(base, n)
    ensures var a := Run(job, Start(base, n), choices);
            && a.releases == (if a.main.Resolved? || a.main.Thrown? then 1 else 0)
            && (a.releases == 1 && !a.destroyed ==> a.server.session.Idle?)
            && (a.destroyed <==> Rejected(Rollback) in a.rejections)
            && (a.main.Thrown? ==>
                  a.rejections != [] && a.main.cause == a.rejections[0] && a.main.cause != Rejected(Rollback))
            && (a.main.Resolved? ==> a.rejections == [])
            && OneUnderWay(a)
  {
    RunKeeps(job, base, n, choices);
    UnderWayRun(job, base, n, choices);
    DestroyedExactly(job, base, n, choices);
  }

  // ---------------------------------------------------------------- it can succeed

  const NO_GAP := Serials(0, 0, 0)

  function Left(a: Attempt): nat {
    if a.main == AwaitBegin then 6 else
    (match a.insert
     case AwaitBlock => 4
     case AwaitTransactions => 3
     case AwaitMessages => 2
     case AwaitEvents => 1
     case _ => 0) + (if a.update == AwaitUpdate then 1 else 0)
  }

  ghost predicate Storable(job: Job, base: Tables) {
    job.body.Store? && job.height !in base.blocks && !HashTaken(base.blocks, job.body.core.hash)
  }

  lemma MessagesAccepted(base: Tables, chainId: string, core: BlockCore, p: Progress, at: Serials, n: Serials)
    requires Linked(core) && p.txs
    ensures Change(Written(base, chainId, core, p, at), n, InsertMessages(LinkedMessages(core, at.tx),
        core.height)).Some?
  {
    var t := Written(base, chainId, core, p, at);
    TxIdsConcat(base.txs, TxRows(core.transactions, at.tx, core.time, core.height));
    forall i | 0 <= i < |core.messages|
      ensures var m := LinkedMessages(core, at.tx)[i]; m.transactionId.Some? && m.transactionId.value in TxIds(t.txs)
    {
      ParentLinks(core, at.tx, i);
      OwnParent(core, at, i);
    }
  }

  lemma NextAccepted(job: Job, base: Tables, n: Serials, a: Attempt)
    requires JobOk(job) && Inv(job, base, n, a) && a.rejections == [] && a.main == Running && a.queue != []
    requires Storable(job, base)
    ensures a.server.session.Open? && !Control(a.queue[0].stmt)
    ensures Change(a.server.session.work, Skip(a.server.serials, NO_GAP), a.queue[0].stmt).Some?
  {
    var core, e := job.body.core, a.queue[0];
    var work := Written(base, job.chainId, core, DoneSoFar(a), a.at);
    if e.waiter == Updater {
      assert e.stmt == UpdateChain(job.chainId, job.height);
    } else if a.insert == AwaitBlock {
      assert e.stmt == InsertBlock(core.height, core.hash, core.time) && work.blocks == base.blocks;
    } else if a.insert == AwaitMessages {
      assert e.stmt == InsertMessages(LinkedMessages(core, a.at.tx), core.height);
      MessagesAccepted(base, job.chainId, core, DoneSoFar(a), a.at, Skip(a.server.serials, NO_GAP));
    } else {
      assert (e.stmt.InsertTransactions? || e.stmt.InsertEvents?) && e.stmt.height in work.blocks;
    }
  }

  lemma BeginAdvances(job: Job, base: Tables, n: Serials, a: Attempt)
    requires Inv(job, base, n, a) && a.rejections == [] && a.main == AwaitBegin && job.body.Store?
    ensures var b := Step(job, a, Execute(false, NO_GAP)); b.rejections == [] && b.main == Running && Left(b) == 5
  {}

  lemma AcceptedReply(job: Job, base: Tables, n: Serials, a: Attempt)
    requires JobOk(job) && Inv(job, base, n, a) && a.rejections == [] && a.main == Running && a.queue != []
    requires Storable(job, base)
    ensures var (a1, reply) := Executed(a, false, NO_GAP);
            && reply.Ok? && a1.rejections == [] && a1.main == Running
            && a1.insert == a.insert && a1.update == a.update
    ensures a.queue[0].waiter == Updater ==> a.update == AwaitUpdate
    ensures a.queue[0].waiter == Inserter ==> a.insert in {AwaitBlock, AwaitTransactions, AwaitMessages, AwaitEvents}
    ensures a.queue[0].waiter in {Updater, Inserter}
  {
    NextAccepted(job, base, n, a);
    assert EntryOk(job, base, a, a.queue[0]);
  }

  lemma ResumeAdvances(job: Job, a: Attempt, w: Waiter, stmt: Stmt, reply: Reply)
    requires reply.Ok? && a.rejections == [] && a.main == Running && job.body.Store?
    requires (w == Updater && a.update == AwaitUpdate) ||
             (w == Inserter && a.insert in {AwaitBlock, AwaitTransactions, AwaitMessages, AwaitEvents})
    ensures var b := Resume(job, a, w, stmt, reply); b.rejections == [] && b.main == Running && Left(b) < Left(a)
  {}

  lemma TaskAdvances(job: Job, base: Tables, n: Serials, a: Attempt)
    requires JobOk(job) && Inv(job, base, n, a) && a.rejections == [] && a.main == Running && a.queue != []
    requires Storable(job, base)
    ensures var b := Step(job, a, Execute(false, NO_GAP)); b.rejections == [] && b.main == Running && Left(b) < Left(a)
  {
    AcceptedReply(job, base, n, a);
    var (a1, reply) := Executed(a, false, NO_GAP);
    ResumeAdvances(job, a1, a.queue[0].waiter, a.queue[0].stmt, reply);
  }

  lemma ExecuteAdvances(job: Job, base: Tables, n: Serials, a: Attempt)
    requires JobOk(job) && Inv(job, base, n, a) && a.rejections == []
    requires a.main in {AwaitBegin, Running} && Storable(job, base)
    ensures var b := Step(job, a, Execute(false, NO_GAP));
            b.rejections == [] && b.main == Running && Left(b) <= if Left(a) == 0 then 0 else Left(a) - 1
  {
    if a.main == AwaitBegin {
      BeginAdvances(job, base, n, a);
    } else if a.queue != [] {
      TaskAdvances(job, base, n, a);
    }
  }

  /** The state after `k` faultless executions. */
  ghost predicate Smoothly(job: Job, base: Tables, n: Serials, a: Attempt, k: nat) {
    && Inv(job, base, n, a) && a.rejections == []
    && Left(a) <= (if k <= 6 then 6 - k else 0)
    && a.main == (if k == 0 then AwaitBegin else Running)
  }

  lemma SmoothStep(job: Job, base: Tables, n: Serials, a: Attempt, k: nat)
    requires JobOk(job) && Consistent(base, n) && Storable(job, base) && Smoothly(job, base, n, a, k)
    ensures Smoothly(job, base, n, Step(job, a, Execute(false, NO_GAP)), k + 1)
  {
    ExecuteAdvances(job, base, n, a);
    OwnStepKeeps(job, base, n, a, Execute(false, NO_GAP));
  }

  /** Executing everything without a fault brings both tasks to their end. */
  lemma RunTasks(job: Job, base: Tables, n: Serials) returns (choices: seq<Choice>, a: Attempt)
    requires JobOk(job) && Consistent(base, n) && Storable(job, base)
    ensures a == Run(job, Start(base, n), choices) && Smoothly(job, base, n, a, 6)
    ensures a.server.committed == base && Answered(choices) && forall r :: Undisturbed(choices, r)
  {
    choices, a := [], Start(base, n);
    StartInv(job, base, n);
    for k := 0 to 6
      invariant a == Run(job, Start(base, n), choices) && Smoothly(job, base, n, a, k)
      invariant forall c :: c in choices ==> c == Execute(false, NO_GAP)
    {
      SmoothStep(job, base, n, a, k);
      RunSnoc(job, Start(base, n), choices, Execute(false, NO_GAP));
      choices, a := choices + [Execute(false, NO_GAP)], Step(job, a, Execute(false, NO_GAP));
    }
  }

  lemma AnsweredCommit(job: Job, a: Attempt, target: Tables)
    requires a.queue == [] && a.main == Running && a.rejections == []
    requires a.insert == InsertDone && a.update == UpdateDone && a.server.session == Open(target)
    ensures var b := Step(job, Step(job, a, Continue), Execute(false, NO_GAP)); b.main == Resolved && b.applied
  {
    var a1 := Step(job, a, Continue);
    assert a1.queue == [Entry(Commit, Main)];
  }

  lemma CommitResolves(job: Job, base: Tables, n: Serials, a: Attempt)
    requires JobOk(job) && Consistent(base, n) && Inv(job, base, n, a)
    requires a.main == Running && a.rejections == [] && Left(a) == 0
    ensures var b := Step(job, Step(job, a, Continue), Execute(false, NO_GAP)); b.main == Resolved && b.applied
  {
    BothDone(job, base, n, a);
    AnsweredCommit(job, a, Target(job, base, a.at));
  }

  /** One more choice. */
  lemma Then(job: Job, start: Attempt, choices: seq<Choice>, c: Choice) returns (more: seq<Choice>)
    ensures more == choices + [c] && Run(job, start, more) == Step(job, Run(job, start, choices), c)
    ensures Answered(choices) && !c.Ask? ==> Answered(more)
    ensures forall r :: Undisturbed(choices, r) && c in {Execute(false, NO_GAP), Continue, Ask(r)} ==>
              Undisturbed(more, r)
  {
    more := choices + [c];
    RunSnoc(job, start, choices, c);
  }

  /** Nothing fails or times out, and the only readers ask for `r`. */
  ghost predicate Undisturbed(choices: seq<Choice>, r: Request) {
    forall c :: c in choices ==> c in {Execute(false, NO_GAP), Continue, Ask(r)}
  }

  /** A block whose height and hash are new is stored when nothing goes wrong: the guarantees above are
      not those of a protocol that never commits. */
  lemma SmoothCommits(job: Job, base: Tables, n: Serials) returns (choices: seq<Choice>)
    requires JobOk(job) && Consistent(base, n) && Storable(job, base)
    ensures var a := Run(job, Start(base, n), choices); a.main == Resolved && a.applied
    ensures Answered(choices)
  {
    var tasks, a := RunTasks(job, base, n);
    CommitResolves(job, base, n, a);
    choices := Then(job, Start(base, n), tasks, Continue);
    choices := Then(job, Start(base, n), choices, Execute(false, NO_GAP));
  }

  // ------------------------------------------------------- the hard cases do happen

  /** COMMIT may take effect although the caller is told that it failed. */
  lemma AmbiguousCommitReached(job: Job, base: Tables, n: Serials) returns (choices: seq<Choice>)
    requires JobOk(job) && Consistent(base, n) && Storable(job, base)
    ensures var a := Run(job, Start(base, n), choices);
            a.applied && a.main == Thrown(Rejected(Commit)) && !a.destroyed
    ensures Answered(choices)
  {
    var start, go := Start(base, n), Execute(false, NO_GAP);
    var tasks, a := RunTasks(job, base, n);
    BothDone(job, base, n, a);
    TimedOutCommit(job, base, a, Target(job, base, a.at));
    choices := Then(job, start, tasks, Continue);
    choices := Then(job, start, choices, Expire(0, false));
    choices := Then(job, start, choices, go);
    choices := Then(job, start, choices, go);
  }

  /** Any read that the server refuses can make the wrapper resolve with nothing stored: it comes when both
      tasks have ended, and COMMIT of the transaction it aborts is answered without an error. */
  lemma LossReached(job: Job, base: Tables, n: Serials, r: Request) returns (choices: seq<Choice>)
    requires JobOk(job) && Consistent(base, n) && Storable(job, base) && !Answerable(r)
    ensures var a := Run(job, Start(base, n), choices);
            a.main == Resolved && !a.applied && a.server.committed == base && InDoubt(a).None? && Abandoned(a) == []
    ensures Undisturbed(choices, r)
  {
    var start, go := Start(base, n), Execute(false, NO_GAP);
    var tasks, a := RunTasks(job, base, n);
    BothDone(job, base, n, a);
    RefusedRead(job, a, Target(job, base, a.at), r);
    choices := Then(job, start, tasks, Ask(r));
    choices := Then(job, start, choices, go);
    choices := Then(job, start, choices, Continue);
    choices := Then(job, start, choices, go);
  }

  lemma RefusedRead(job: Job, a: Attempt, target: Tables, r: Request)
    requires a.queue == [] && a.main == Running && a.rejections == [] && !a.destroyed && !a.applied
    requires a.insert == InsertDone && a.update == UpdateDone && a.server.session == Open(target) && !Answerable(r)
    ensures var go := Execute(false, NO_GAP);
            var b := Step(job, Step(job, Step(job, Step(job, a, Ask(r)), go), Continue), go);
            && b.main == Resolved && !b.applied && b.queue == []
            && b.server.committed == a.server.committed && b.server.session == Idle
  {
    var a1 := Step(job, a, Ask(r));
    assert a1.queue == [Entry(Read(r), Reader)];
    var a2 := Step(job, a1, Execute(false, NO_GAP));
    assert a2.queue == [] && a2.server.session == Failed;
    var a3 := Step(job, a2, Continue);
    assert a3.queue == [Entry(Commit, Main)];
  }

  /** COMMIT may still be under way when the client is given up: both it and the ROLLBACK time out. */
  lemma DoubtReached(job: Job, base: Tables, n: Serials) returns (choices: seq<Choice>)
    requires JobOk(job) && Consistent(base, n) && Storable(job, base)
    ensures var a := Run(job, Start(base, n), choices);
            a.main == Thrown(Rejected(Commit)) && a.destroyed && !a.applied && InDoubt(a).Some?
    ensures Answered(choices)
  {
    var tasks, a := RunTasks(job, base, n);
    BothDone(job, base, n, a);
    GivenUpCommit(job, a, Target(job, base, a.at));
    choices := Then(job, Start(base, n), tasks, Continue);
    choices := Then(job, Start(base, n), choices, Expire(0, false));
    choices := Then(job, Start(base, n), choices, Expire(1, false));
  }

  lemma GivenUpCommit(job: Job, a: Attempt, target: Tables)
    requires a.queue == [] && a.main == Running && a.rejections == [] && !a.applied
    requires a.insert == InsertDone && a.update == UpdateDone && a.server.session == Open(target)
    ensures var b := Step(job, Step(job, Step(job, a, Continue), Expire(0, false)), Expire(1, false));
            b.main == Thrown(Rejected(Commit)) && b.destroyed && !b.applied && InDoubt(b) == Some(target)
  {
    var a1 := Step(job, a, Continue);
    assert a1.queue == [Entry(Commit, Main)];
    var a2 := Step(job, a1, Expire(0, false));
    assert a2.queue == [Entry(Commit, Nobody), Entry(Rollback, Main)];
  }

  lemma TimedOutCommit(job: Job, base: Tables, a: Attempt, target: Tables)
    requires a.queue == [] && a.main == Running && a.rejections == [] && !a.destroyed
    requires a.insert == InsertDone && a.update == UpdateDone && a.server.session == Open(target)
    ensures var go := Execute(false, NO_GAP);
            var b := Step(job, Step(job, Step(job, Step(job, a, Continue), Expire(0, false)), go), go);
            b.applied && b.main == Thrown(Rejected(Commit)) && !b.destroyed
  {
    var a1 := Step(job, a, Continue);
    assert a1.queue == [Entry(Commit, Main)];
    var a2 := Step(job, a1, Expire(0, false));
    assert a2.queue == [Entry(Commit, Nobody), Entry(Rollback, Main)];
    var a3 := Step(job, a2, Execute(false, NO_GAP));
    assert a3.queue == [Entry(Rollback, Main)];
  }

  /** An event insert can be left waiting behind the ROLLBACK on a connection that is back in the pool: the
      checkpoint task times out while its UPDATE is under way, and the block task goes on. */
  lemma LateInsertReached(job: Job, base: Tables, n: Serials) returns (choices: seq<Choice>)
    requires JobOk(job) && Storable(job, base)
    requires var core := job.body.core; core.transactions != [] && core.messages == [] && core.events != []
    ensures var a := Run(job, Start(base, n), choices);
            var core := job.body.core;
            && a.main.Thrown? && !a.destroyed && a.releases == 1 && a.server.session.Idle? && !a.applied
            && a.queue == [Entry(InsertEvents(core.events, core.time, core.height), Inserter)]
    ensures Answered(choices)
  {
    var start, go := Start(base, n), Execute(false, NO_GAP);
    LateInsertSteps(job, base, n);
    choices := Then(job, start, [], go);
    choices := Then(job, start, choices, go);
    choices := Then(job, start, choices, Expire(0, false));
    choices := Then(job, start, choices, Continue);
    choices := Then(job, start, choices, go);
    choices := Then(job, start, choices, go);
    choices := Then(job, start, choices, go);
  }

  lemma LateInsertSteps(job: Job, base: Tables, n: Serials)
    requires JobOk(job) && Storable(job, base)
    requires var core := job.body.core; core.transactions != [] && core.messages == [] && core.events != []
    ensures var go, core := Execute(false, NO_GAP), job.body.core;
            var a3 := Step(job, Step(job, Step(job, Start(base, n), go), go), Expire(0, false));
            var a := Step(job, Step(job, Step(job, Step(job, a3, Continue), go), go), go);
            && a.main.Thrown? && !a.destroyed && a.releases == 1 && a.server.session.Idle? && !a.applied
            && a.queue == [Entry(InsertEvents(core.events, core.time, core.height), Inserter)]
  {
    var start, go, core := Start(base, n), Execute(false, NO_GAP), job.body.core;
    var update, late := UpdateChain(job.chainId, job.height), InsertEvents(core.events, core.time, core.height);
    var txs := InsertTransactions(core.transactions, core.time, core.height);
    var a1 := Step(job, start, go);
    assert a1.queue == [Entry(InsertBlock(core.height, core.hash, core.time), Inserter), Entry(update, Updater)];
    var a2 := Step(job, a1, go);
    assert a2.queue == [Entry(update, Updater), Entry(txs, Inserter)];
    var a3 := Step(job, a2, Expire(0, false));
    assert a3.queue == [Entry(update, Nobody), Entry(txs, Inserter)];
    var a4 := Step(job, a3, Continue);
    assert a4.queue == [Entry(update, Nobody), Entry(txs, Inserter), Entry(Rollback, Main)];
    var a5 := Step(job, a4, go);
    assert a5.queue == [Entry(txs, Inserter), Entry(Rollback, Main)];
    var a6 := Step(job, a5, go);
    assert a6.queue == [Entry(Rollback, Main), Entry(late, Inserter)];
  }

  /** So can an insert of transactions, if the timer of UPDATE fires before that of the insert of the block
      row, which was set first. */
  lemma LateTransactionsReached(job: Job, base: Tables, n: Serials) returns (choices: seq<Choice>)
    requires JobOk(job) && Storable(job, base) && job.body.core.transactions != []
    ensures var a := Run(job, Start(base, n), choices);
            var core := job.body.core;
            && a.main.Thrown? && !a.destroyed && a.releases == 1 && a.server.session.Idle? && !a.applied
            && a.queue == [Entry(InsertTransactions(core.transactions, core.time, core.height), Inserter)]
    ensures Answered(choices)
  {
    var start, go, core := Start(base, n), Execute(false, NO_GAP), job.body.core;
    var insert, update := InsertBlock(core.height, core.hash, core.time), UpdateChain(job.chainId, job.height);
    var late := InsertTransactions(core.transactions, core.time, core.height);
    var a1 := Step(job, start, go);
    assert a1.queue == [Entry(insert, Inserter), Entry(update, Updater)];
    var a2 := Step(job, a1, Expire(1, false));
    assert a2.queue == [Entry(insert, Inserter), Entry(update, Nobody)];
    var a3 := Step(job, a2, Continue);
    assert a3.queue == [Entry(insert, Inserter), Entry(update, Nobody), Entry(Rollback, Main)];
    var a4 := Step(job, a3, go);
    assert a4.queue == [Entry(update, Nobody), Entry(Rollback, Main), Entry(late, Inserter)];
    var a5 := Step(job, a4, go);
    assert a5.queue == [Entry(Rollback, Main), Entry(late, Inserter)];
    var a6 := Step(job, a5, go);
    assert a6.queue == [Entry(late, Inserter)];
    choices := Then(job, start, [], go);
    choices := Then(job, start, choices, Expire(1, false));
    choices := Then(job, start, choices, Continue);
    choices := Then(job, start, choices, go);
    choices := Then(job, start, choices, go);
    choices := Then(job, start, choices, go);
  }

  /** How far the foreign keys protect: should a leftover insert of events or transactions outlive the commit
      of its height by a later attempt, it succeeds and the block no longer reads back as stored. */
  lemma LeftoverAfterCommit(t: Tables, n: Serials, core: BlockCore, stmt: Stmt)
    requires Holds(t, core) && ChildInsert(stmt) && (stmt.InsertTransactions? || stmt.InsertEvents?)
    requires stmt.height == core.height
    ensures var (s, reply) := Exec(Server(t, Idle, n), stmt, false);
            reply.Ok? && GetCoreBlock(s.committed, s.committed, core.height) != Some(SpecView(core))
  {
    var (s, reply) := Exec(Server(t, Idle, n), stmt, false);
    assert reply.Ok?;
    ViewParts(s.committed, core);
    if stmt.InsertEvents? { EventsSpoil(t, n, core, stmt); } else { TransactionsSpoil(t, n, core, stmt); }
  }

  /** Two views that agree agree in what each query found. */
  lemma ViewParts(t: Tables, core: BlockCore)
    ensures GetCoreBlock(t, t, core.height) == Some(SpecView(core)) ==>
              && QueryEvents(t, core.height) == Some((core.time, LeftJoined(SpecEventViews(core))))
              && QueryTransactions(t, core.height) == multiset(SpecTxViews(core))
  {}

  lemma EventsSpoil(t: Tables, n: Serials, core: BlockCore, stmt: Stmt)
    requires Holds(t, core) && stmt.InsertEvents? && stmt.events != [] && stmt.height == core.height
    ensures var s := Exec(Server(t, Idle, n), stmt, false).0.committed;
            QueryEvents(s, core.height) != Some((core.time, LeftJoined(SpecEventViews(core))))
  {
    var rows := EventRows(stmt.events, n.event, stmt.time, core.height);
    FilterMapConcat(EventAt(core.height), t.events, rows);
    FilterMapTotal(EventAt(core.height), rows);
    var views := FilterMap(EventAt(core.height), rows);
    assert LeftJoined(SpecEventViews(core) + views)[0].Some?;
    assert |LeftJoined(SpecEventViews(core) + views)| == |SpecEventViews(core)| + |views|;
  }

  lemma TransactionsSpoil(t: Tables, n: Serials, core: BlockCore, stmt: Stmt)
    requires Holds(t, core) && stmt.InsertTransactions? && stmt.txs != [] && stmt.height == core.height
    ensures var s := Exec(Server(t, Idle, n), stmt, false).0.committed;
            QueryTransactions(s, core.height) != multiset(SpecTxViews(core))
  {
    var rows := TxRows(stmt.txs, n.tx, stmt.time, core.height);
    var s := Exec(Server(t, Idle, n), stmt, false).0.committed;
    FilterMapConcat(TxAt(core.height), t.txs, rows);
    FilterMapTotal(TxAt(core.height), rows);
    assert |TxViews(t, FilterMap(TxAt(core.height), t.txs))| == |SpecTxViews(core)|;
    assert |QueryTransactions(s, core.height)| > |multiset(SpecTxViews(core))|;
  }
}
