/** Readers on the transaction's client (src/postgres/client.ts, src/app.ts): every interleaving of an attempt
    with any number of their statements is followed by one in which the attempt has its connection to
    itself, but for one way to end. */
module SharedClient {
  import opened Prelude
  import opened RawData
  import opened Database
  import opened BlockSync
  import opened BlockStore
  import opened CommitProtocol
  import opened ProtocolProofs

  // ------------------------------------------------------------- the queue without reads

  const OwnEntry: Entry -> Option<Entry> := (e: Entry) => if e.stmt.Read? then None else Some(e)

  /** The attempt's own statements in a queue. */
  function Own(q: seq<Entry>): seq<Entry> {
    FilterMap(OwnEntry, q)
  }

  lemma OwnOne(e: Entry)
    ensures Own([e]) == if e.stmt.Read? then [] else [e]
  {
    assert [] + [e] == [e];
    OwnSnoc([], e);
  }

  lemma OwnSnoc(q: seq<Entry>, e: Entry)
    ensures Own(q + [e]) == if e.stmt.Read? then Own(q) else Own(q) + [e]
  {
    FilterMapSnoc(OwnEntry, q, e);
  }

  lemma OwnAround(front: seq<Entry>, e: Entry, rest: seq<Entry>)
    ensures Own(front + [e] + rest) == Own(front) + (if e.stmt.Read? then [] else [e]) + Own(rest)
    ensures Own(front + rest) == Own(front) + Own(rest)
  {
    OwnSnoc(front, e);
    FilterMapConcat(OwnEntry, front + [e], rest);
    FilterMapConcat(OwnEntry, front, rest);
  }

  lemma OwnHead(q: seq<Entry>)
    requires q != []
    ensures Own(q) == if q[0].stmt.Read? then Own(q[1..]) else [q[0]] + Own(q[1..])
  {
    assert q == [] + [q[0]] + q[1..];
    OwnAround([], q[0], q[1..]);
  }

  /** Where the k-th statement of a queue is among the attempt's own. */
  lemma OwnSplit(q: seq<Entry>, k: nat)
    requires k < |q|
    ensures Own(q) == Own(q[..k]) + (if q[k].stmt.Read? then [] else [q[k]]) + Own(q[k + 1..])
    ensures Own(q[..k] + q[k + 1..]) == Own(q[..k]) + Own(q[k + 1..])
  {
    assert q == q[..k] + [q[k]] + q[k + 1..];
    OwnAround(q[..k], q[k], q[k + 1..]);
  }

  lemma OwnIndex(q: seq<Entry>, k: nat) returns (i: nat)
    requires k < |q| && !q[k].stmt.Read?
    ensures i < |Own(q)| && Own(q)[i] == q[k] && i <= k && i == |Own(q[..k])|
  {
    OwnSplit(q, k);
    KeptImages(OwnEntry, q[..k]);
    i := |Own(q[..k])|;
  }

  // ------------------------------------------------------------------ the relation

  ghost predicate QueueMirrors(a: Attempt, b: Attempt) {
    b.queue == Own(a.queue) || (a.destroyed && Own(a.queue) == [])
  }

  /** A failed read has aborted the transaction, and nobody knows yet. */
  ghost predicate SessionMirrors(a: Attempt, b: Attempt) {
    || b.server.session == a.server.session
    || (a.spoiled && a.server.session.Failed? && b.server.session.Open?)
  }

  ghost predicate ReadsOk(a: Attempt) {
    && (forall i :: 0 <= i < |a.queue| && a.queue[i].stmt.Read? ==>
          a.insert != InsertIdle && a.queue[i].waiter in {Reader, Nobody})
    && (forall i :: 0 <= i < |a.queue| && a.queue[i].waiter == Reader ==> a.queue[i].stmt.Read?)
    && (a.spoiled ==> a.insert != InsertIdle && !a.server.session.Open? && !a.applied)
  }

  /** `b` is what `a` is without the readers. */
  ghost predicate Mirrors(a: Attempt, b: Attempt) {
    && b == a.(server := b.server, queue := b.queue, spoiled := false)
    && b.server.committed == a.server.committed && b.server.serials == a.server.serials
    && QueueMirrors(a, b) && SessionMirrors(a, b) && ReadsOk(a)
  }

  /** The block is lost: the wrapper has resolved, because COMMIT of the aborted transaction was answered
      without an error, and nothing was stored. */
  ghost predicate Lost(job: Job, base: Tables, n: Serials, a: Attempt) {
    && a.main == Resolved && a.spoiled && !a.applied
    && job.body.Store? && job.height !in base.blocks
    && a.insert == InsertDone && a.update == UpdateDone && a.rejections == []
    && a.releases == 1 && !a.destroyed
    && a.server.committed == base && a.server.session == Idle && SerialsLeq(n, a.server.serials)
    && Own(a.queue) == [] && ReadsOk(a)
  }

  /** Holds in every state of every interleaving. */
  ghost predicate SharedInv(job: Job, base: Tables, n: Serials, a: Attempt) {
    Lost(job, base, n, a) || exists b :: Inv(job, base, n, b) && Mirrors(a, b)
  }

  // --------------------------------------------------------------- readers' steps

  lemma AskMirrors(job: Job, a: Attempt, b: Attempt, r: Request)
    requires Mirrors(a, b)
    ensures Mirrors(Step(job, a, Ask(r)), b)
  {
    OwnSnoc(a.queue, Entry(Read(r), Reader));
  }

  lemma ReadMirrors(job: Job, a: Attempt, b: Attempt, fault: bool, gap: Serials)
    requires Mirrors(a, b) && a.queue != [] && a.queue[0].stmt.Read?
    requires b.applied ==> b.server.session.Idle?
    ensures Mirrors(Step(job, a, Execute(fault, gap)), b)
  {
    OwnHead(a.queue);
    var a1 := ReadExecuted(a).0;
    assert forall i :: 0 <= i < |a1.queue| ==> a1.queue[i] == a.queue[i + 1];
  }

  lemma ReadExpires(job: Job, a: Attempt, b: Attempt, k: nat, withdraw: bool)
    requires Mirrors(a, b) && k < |a.queue| && a.queue[k].stmt.Read?
    ensures Mirrors(Step(job, a, Expire(k, withdraw)), b)
  {
    if a.queue[k].waiter != Nobody {
      OwnSplit(a.queue, k);
      ExpiredOwn(a, k, withdraw);
      assert Own(Expired(a, k, withdraw).queue) == Own(a.queue);
      ExpiredEntries(a, k, withdraw);
      assert ReadsOk(Expired(a, k, withdraw));
    }
  }

  lemma ExpiredOwn(a: Attempt, k: nat, withdraw: bool)
    requires k < |a.queue|
    ensures var q, e := a.queue, Entry(a.queue[k].stmt, Nobody);
            Own(Expired(a, k, withdraw).queue) ==
              Own(q[..k]) + (if withdraw || e.stmt.Read? then [] else [e]) + Own(q[k + 1..])
  {
    var q, e := a.queue, Entry(a.queue[k].stmt, Nobody);
    assert q[k := e] == q[..k] + [e] + q[k + 1..];
    OwnAround(q[..k], e, q[k + 1..]);
  }

  // ------------------------------------------------------------ the attempt's own steps

  lemma EnqueueMirrors(a: Attempt, b: Attempt, stmt: Stmt, w: Waiter)
    requires Mirrors(a, b) && !a.destroyed && !stmt.Read? && w != Reader
    ensures Mirrors(Enqueue(a, stmt, w), Enqueue(b, stmt, w))
  {
    OwnSnoc(a.queue, Entry(stmt, w));
  }

  lemma DestroyMirrors(a: Attempt, b: Attempt, cause: Failure)
    requires Mirrors(a, b) && !a.destroyed
    ensures Mirrors(Destroy(a, cause), Destroy(b, cause))
  {
    var a1, b1 := Destroy(a, cause), Destroy(b, cause);
    assert ReadsOk(a1);
    if a.queue == [] {
      assert b.queue == [] && Own(a1.queue) == [];
    } else {
      OwnHead(a.queue);
      OwnOne(Entry(a.queue[0].stmt, Nobody));
      assert QueueMirrors(a1, b1);
    }
  }

  lemma StartBodyMirrors(job: Job, a: Attempt, b: Attempt)
    requires Mirrors(a, b) && !a.destroyed
    ensures Mirrors(StartBody(job, a), StartBody(job, b))
  {
    var update := UpdateChain(job.chainId, job.height);
    match job.body
    case FnThrows =>
    case BlockThrows =>
      var a1 := Reject(a.(main := Running, insert := InsertFailed, update := AwaitUpdate), BodyThrew);
      var b1 := Reject(b.(main := Running, insert := InsertFailed, update := AwaitUpdate), BodyThrew);
      EnqueueMirrors(a1, b1, update, Updater);
    case Store(core) =>
      var insert := InsertBlock(core.height, core.hash, core.time);
      var a1 := a.(main := Running, insert := AwaitBlock, update := AwaitUpdate);
      var b1 := b.(main := Running, insert := AwaitBlock, update := AwaitUpdate);
      EnqueueMirrors(a1, b1, insert, Inserter);
      EnqueueMirrors(Enqueue(a1, insert, Inserter), Enqueue(b1, insert, Inserter), update, Updater);
  }

  lemma ToEventsMirrors(core: BlockCore, a: Attempt, b: Attempt)
    requires Mirrors(a, b) && !a.destroyed && a.insert != InsertIdle
    ensures Mirrors(ToEvents(core, a), ToEvents(core, b))
  {
    var stmt := InsertEvents(core.events, core.time, core.height);
    EnqueueMirrors(a.(insert := AwaitEvents), b.(insert := AwaitEvents), stmt, Inserter);
  }

  lemma AfterBlockMirrors(core: BlockCore, a: Attempt, b: Attempt)
    requires Mirrors(a, b) && !a.destroyed && a.insert != InsertIdle
    ensures Mirrors(AfterBlock(core, a), AfterBlock(core, b))
  {
    var stmt := InsertTransactions(core.transactions, core.time, core.height);
    EnqueueMirrors(a.(insert := AwaitTransactions), b.(insert := AwaitTransactions), stmt, Inserter);
    ToEventsMirrors(core, a, b);
  }

  lemma AfterTransactionsMirrors(core: BlockCore, a: Attempt, b: Attempt, rows: seq<(nat, nat)>)
    requires Mirrors(a, b) && !a.destroyed && a.insert != InsertIdle
    ensures Mirrors(AfterTransactions(core, a, rows), AfterTransactions(core, b, rows))
  {
    var stmt := InsertMessages(Link(core.messages, IdMap(rows)), core.height);
    EnqueueMirrors(a.(insert := AwaitMessages), b.(insert := AwaitMessages), stmt, Inserter);
    ToEventsMirrors(core, a, b);
  }

  lemma ResumeInserterMirrors(job: Job, a: Attempt, b: Attempt, stmt: Stmt, reply: Reply)
    requires Mirrors(a, b) && !a.destroyed && a.insert != InsertIdle
    ensures Mirrors(Resume(job, a, Inserter, stmt, reply), Resume(job, b, Inserter, stmt, reply))
  {
    if reply.Ok? && job.body.Store? {
      match a.insert
      case AwaitBlock => AfterBlockMirrors(job.body.core, a, b);
      case AwaitTransactions => AfterTransactionsMirrors(job.body.core, a, b, reply.rows);
      case AwaitMessages => ToEventsMirrors(job.body.core, a, b);
      case _ =>
    }
  }

  lemma ResumeMainMirrors(job: Job, a: Attempt, b: Attempt, stmt: Stmt, reply: Reply)
    requires Mirrors(a, b) && !a.destroyed
    ensures Mirrors(Resume(job, a, Main, stmt, reply), Resume(job, b, Main, stmt, reply))
  {
    if reply.Ok? {
      if a.main == AwaitBegin { StartBodyMirrors(job, a, b); }
    } else {
      var a1, b1 := Reject(a, Rejected(stmt)), Reject(b, Rejected(stmt));
      assert Mirrors(a1, b1);
      if a.main.AwaitRollback? {
        DestroyMirrors(a1, b1, a.main.cause);
      } else {
        ToRollbackMirrors(a1, b1, Rejected(stmt));
      }
    }
  }

  lemma ToRollbackMirrors(a: Attempt, b: Attempt, cause: Failure)
    requires Mirrors(a, b) && !a.destroyed
    ensures Mirrors(ToRollback(a, cause), ToRollback(b, cause))
  {
    EnqueueMirrors(a.(main := AwaitRollback(cause)), b.(main := AwaitRollback(cause)), Rollback, Main);
  }

  /** The same reply takes both on in the same way. */
  lemma ResumeMirrors(job: Job, a: Attempt, b: Attempt, w: Waiter, stmt: Stmt, reply: Reply)
    requires Mirrors(a, b) && (w == Nobody || !a.destroyed) && w != Reader
    requires w == Inserter ==> a.insert != InsertIdle
    ensures Mirrors(Resume(job, a, w, stmt, reply), Resume(job, b, w, stmt, reply))
  {
    match w
    case Main => ResumeMainMirrors(job, a, b, stmt, reply);
    case Inserter => ResumeInserterMirrors(job, a, b, stmt, reply);
    case Updater =>
    case Nobody =>
  }

  /** The timer of one of the attempt's own statements. */
  lemma ExpireMirrors(job: Job, base: Tables, n: Serials, a: Attempt, b: Attempt, k: nat, withdraw: bool)
      returns (c: Choice)
    requires Inv(job, base, n, b) && Mirrors(a, b)
    requires k < |a.queue| && !a.queue[k].stmt.Read? && a.queue[k].waiter != Nobody
    ensures !c.Ask? && Mirrors(Step(job, a, Expire(k, withdraw)), Step(job, b, c))
  {
    var i := OwnIndex(a.queue, k);
    c := Expire(i, withdraw);
    assert b.queue == Own(a.queue);
    assert EntryOk(job, base, b, b.queue[i]);
    ExpiredMirrors(a, b, k, i, withdraw);
    ResumeMirrors(job, Expired(a, k, withdraw), Expired(b, i, withdraw), a.queue[k].waiter, a.queue[k].stmt, Error);
  }

  lemma ExpiredMirrors(a: Attempt, b: Attempt, k: nat, i: nat, withdraw: bool)
    requires Mirrors(a, b) && k < |a.queue| && !a.queue[k].stmt.Read?
    requires b.queue == Own(a.queue) && i == |Own(a.queue[..k])| && i < |b.queue|
    ensures Mirrors(Expired(a, k, withdraw), Expired(b, i, withdraw))
  {
    ExpiredOwn(a, k, withdraw);
    ExpiredEntries(a, k, withdraw);
    OwnSplit(a.queue, k);
    var front, rest, e := Own(a.queue[..k]), Own(a.queue[k + 1..]), a.queue[k];
    assert b.queue == front + [e] + rest;
    assert b.queue[..i] == front && b.queue[i + 1..] == rest;
    assert b.queue[i := Entry(e.stmt, Nobody)] == front + [Entry(e.stmt, Nobody)] + rest;
  }

  /** One of the attempt's own statements is executed on the same session. */
  lemma SameSessionExecutes(job: Job, a: Attempt, b: Attempt, fault: bool, gap: Serials)
    requires Mirrors(a, b) && b.queue == Own(a.queue) && a.server.session == b.server.session
    requires a.queue != [] && !a.queue[0].stmt.Read? && (a.spoiled ==> !a.queue[0].stmt.Begin?)
    ensures b.queue != []
    ensures var (a1, r) := Executed(a, fault, gap);
            var (b1, s) := Executed(b, fault, gap);
            r == s && b.queue[0] == a.queue[0] && Mirrors(a1, b1)
  {
    OwnHead(a.queue);
    var a1 := Executed(a, fault, gap).0;
    assert a.server == b.server;
    assert forall i :: 0 <= i < |a1.queue| ==> a1.queue[i] == a.queue[i + 1];
  }

  /** On the aborted transaction a data statement fails; without the readers it fails by itself. */
  lemma AbortedExecutes(job: Job, a: Attempt, b: Attempt, fault: bool, gap: Serials)
    requires Mirrors(a, b) && b.queue == Own(a.queue) && a.server.session.Failed? && b.server.session.Open?
    requires a.queue != [] && !a.queue[0].stmt.Read? && !a.queue[0].stmt.Begin?
    requires a.queue[0].stmt.Commit? ==> a.queue[0].waiter == Nobody
    ensures b.queue != []
    ensures var (a1, r) := Executed(a, fault, gap);
            var (b1, s) := Executed(b, fault || !a.queue[0].stmt.Rollback?, gap);
            (r == s || a.queue[0].waiter == Nobody) && b.queue[0] == a.queue[0] && Mirrors(a1, b1)
  {
    OwnHead(a.queue);
    var a1 := Executed(a, fault, gap).0;
    assert forall i :: 0 <= i < |a1.queue| ==> a1.queue[i] == a.queue[i + 1];
  }

  /** What is known when the wrapper's COMMIT is at the head of the queue. */
  ghost predicate AtCommit(job: Job, base: Tables, n: Serials, a: Attempt) {
    && a.main == AwaitCommit && job.body.Store? && job.height !in base.blocks
    && a.insert == InsertDone && a.update == UpdateDone && a.rejections == [] && a.releases == 0 && !a.destroyed
    && !a.applied && a.server.committed == base && SerialsLeq(n, a.server.serials)
  }

  lemma CommitKnown(job: Job, base: Tables, n: Serials, b: Attempt)
    requires Inv(job, base, n, b) && b.queue != [] && b.queue[0] == Entry(Commit, Main)
    ensures AtCommit(job, base, n, b) && b.queue == [Entry(Commit, Main)]
  {
    assert EntryOk(job, base, b, b.queue[0]);
  }

  lemma AbortedCommit(job: Job, base: Tables, n: Serials, a: Attempt, gap: Serials)
    requires AtCommit(job, base, n, a) && ReadsOk(a) && a.server.session.Failed? && a.spoiled
    requires a.queue != [] && a.queue[0] == Entry(Commit, Main) && Own(a.queue[1..]) == []
    ensures Lost(job, base, n, Step(job, a, Execute(false, gap)))
  {
    var (a1, reply) := Executed(a, false, gap);
    assert reply.Ok? && a1.server.session.Idle? && !a1.applied;
    assert ReadsOk(a1) by {
      assert forall i :: 0 <= i < |a1.queue| ==> a1.queue[i] == a.queue[i + 1];
    }
  }

  /** COMMIT of a transaction that a read has aborted. */
  lemma CommitLoses(job: Job, base: Tables, n: Serials, a: Attempt, b: Attempt, gap: Serials)
    requires Inv(job, base, n, b) && Mirrors(a, b) && b.queue == Own(a.queue)
    requires a.server.session.Failed? && b.server.session.Open?
    requires a.queue != [] && a.queue[0] == Entry(Commit, Main)
    ensures Lost(job, base, n, Step(job, a, Execute(false, gap)))
  {
    OwnHead(a.queue);
    CommitKnown(job, base, n, b);
    AbortedCommit(job, base, n, a, gap);
  }

  lemma ExecuteShared(job: Job, base: Tables, n: Serials, a: Attempt, b: Attempt, fault: bool, gap: Serials)
    requires JobOk(job) && Consistent(base, n) && Inv(job, base, n, b) && Mirrors(a, b)
    requires a.queue != [] && !a.queue[0].stmt.Read?
    ensures SharedInv(job, base, n, Step(job, a, Execute(fault, gap)))
  {
    OwnHead(a.queue);
    assert b.queue == Own(a.queue) && b.queue[0] == a.queue[0];
    var e := a.queue[0];
    assert EntryOk(job, base, b, e);
    var (a1, r) := Executed(a, fault, gap);
    if a.server.session == b.server.session {
      SameSessionExecutes(job, a, b, fault, gap);
      var (b1, s) := Executed(b, fault, gap);
      ResumeMirrors(job, a1, b1, e.waiter, e.stmt, r);
      OwnStepKeeps(job, base, n, b, Execute(fault, gap));
    } else if e == Entry(Commit, Main) && !fault {
      CommitLoses(job, base, n, a, b, gap);
    } else {
      var f := AbortedMirrors(job, base, n, a, b, fault, gap);
      OwnStepKeeps(job, base, n, b, Execute(f, gap));
    }
  }

  lemma AbortedMirrors(job: Job, base: Tables, n: Serials, a: Attempt, b: Attempt, fault: bool, gap: Serials)
      returns (f: bool)
    requires Inv(job, base, n, b) && Mirrors(a, b) && b.queue == Own(a.queue)
    requires a.server.session.Failed? && b.server.session.Open?
    requires a.queue != [] && !a.queue[0].stmt.Read? && (a.queue[0] == Entry(Commit, Main) ==> fault)
    ensures Mirrors(Step(job, a, Execute(fault, gap)), Step(job, b, Execute(f, gap)))
  {
    OwnHead(a.queue);
    var e := a.queue[0];
    assert b.queue[0] == e && EntryOk(job, base, b, e);
    if e == Entry(Commit, Main) {
      FaultyCommit(job, a, b, gap);
      f := true;
    } else {
      f := fault || !e.stmt.Rollback?;
      AbortedExecutes(job, a, b, fault, gap);
      var (a1, r) := Executed(a, fault, gap);
      var (b1, s) := Executed(b, f, gap);
      ResumeMirrors(job, a1, b1, e.waiter, e.stmt, r);
    }
  }

  lemma FaultyCommit(job: Job, a: Attempt, b: Attempt, gap: Serials)
    requires Mirrors(a, b) && b.queue == Own(a.queue) && a.server.session.Failed? && b.server.session.Open?
    requires a.queue != [] && a.queue[0] == Entry(Commit, Main) && !a.destroyed
    ensures Mirrors(Step(job, a, Execute(true, gap)), Step(job, b, Execute(true, gap)))
  {
    OwnHead(a.queue);
    var (a1, r) := Executed(a, true, gap);
    var (b1, s) := Executed(b, true, gap);
    assert forall i :: 0 <= i < |a1.queue| ==> a1.queue[i] == a.queue[i + 1];
    ResumeMirrors(job, a1, b1, Main, Commit, Error);
  }

  lemma ContinueMirrors(job: Job, a: Attempt, b: Attempt)
    requires Mirrors(a, b) && (a.main == Running ==> !a.destroyed)
    ensures Mirrors(Step(job, a, Continue), Step(job, b, Continue))
  {
    if a.main == Running {
      if a.rejections != [] {
        ToRollbackMirrors(a, b, a.rejections[0]);
      } else {
        EnqueueMirrors(a.(main := AwaitCommit), b.(main := AwaitCommit), Commit, Main);
      }
    }
  }

  // ---------------------------------------------------------------- all steps

  /** A lost block stays lost: all that is left are reads outside a transaction. */
  lemma LostStep(job: Job, base: Tables, n: Serials, a: Attempt, c: Choice)
    requires Lost(job, base, n, a)
    ensures Lost(job, base, n, Step(job, a, c))
  {
    match c
    case Ask(r) => OwnSnoc(a.queue, Entry(Read(r), Reader));
    case Continue =>
    case Execute(fault, gap) =>
      if a.queue != [] { LostExecutes(job, base, n, a, fault, gap); }
    case Expire(k, withdraw) =>
      if k < |a.queue| { LostExpires(job, base, n, a, k, withdraw); }
  }

  lemma LostExecutes(job: Job, base: Tables, n: Serials, a: Attempt, fault: bool, gap: Serials)
    requires Lost(job, base, n, a) && a.queue != []
    ensures Lost(job, base, n, Step(job, a, Execute(fault, gap)))
  {
    OwnHead(a.queue);
    var a1 := ReadExecuted(a).0;
    assert forall i :: 0 <= i < |a1.queue| ==> a1.queue[i] == a.queue[i + 1];
  }

  lemma LostExpires(job: Job, base: Tables, n: Serials, a: Attempt, k: nat, withdraw: bool)
    requires Lost(job, base, n, a) && k < |a.queue|
    ensures Lost(job, base, n, Step(job, a, Expire(k, withdraw)))
  {
    OwnSplit(a.queue, k);
    ExpiredOwn(a, k, withdraw);
    ExpiredEntries(a, k, withdraw);
    assert a.queue[k].waiter in {Reader, Nobody};
    assert ReadsOk(Expired(a, k, withdraw));
  }

  /** Every step of every interleaving, with any number of readers, keeps the invariant. */
  lemma StepKeeps(job: Job, base: Tables, n: Serials, a: Attempt, c: Choice)
    requires JobOk(job) && Consistent(base, n) && SharedInv(job, base, n, a)
    ensures SharedInv(job, base, n, Step(job, a, c))
  {
    if Lost(job, base, n, a) {
      LostStep(job, base, n, a, c);
    } else {
      var b :| Inv(job, base, n, b) && Mirrors(a, b);
      match c
      case Ask(r) => AskMirrors(job, a, b, r);
      case Continue =>
        ContinueMirrors(job, a, b);
        OwnStepKeeps(job, base, n, b, Continue);
      case Execute(fault, gap) =>
        if a.queue != [] {
          if a.queue[0].stmt.Read? {
            ReadMirrors(job, a, b, fault, gap);
          } else {
            ExecuteShared(job, base, n, a, b, fault, gap);
          }
        }
      case Expire(k, withdraw) =>
        if k < |a.queue| && a.queue[k].waiter != Nobody {
          if a.queue[k].stmt.Read? {
            ReadExpires(job, a, b, k, withdraw);
          } else {
            var c1 := ExpireMirrors(job, base, n, a, b, k, withdraw);
            OwnStepKeeps(job, base, n, b, c1);
          }
        }
    }
  }

  lemma StartShared(job: Job, base: Tables, n: Serials)
    requires JobOk(job) && Consistent(base, n)
    ensures SharedInv(job, base, n, Start(base, n))
  {
    StartInv(job, base, n);
    OwnOne(Entry(Begin, Main));
    assert Mirrors(Start(base, n), Start(base, n));
  }

  lemma {:induction false} RunKeeps(job: Job, base: Tables, n: Serials, choices: seq<Choice>)
    requires JobOk(job) && Consistent(base, n)
    ensures SharedInv(job, base, n, Run(job, Start(base, n), choices))
  {
    if choices == [] {
      StartShared(job, base, n);
    } else {
      var a := Run(job, Start(base, n), choices[..|choices| - 1]);
      RunKeeps(job, base, n, choices[..|choices| - 1]);
      StepKeeps(job, base, n, a, choices[|choices| - 1]);
    }
  }

  /** The attempt's own statements in a shared queue meet the invariant of the unshared attempt. */
  lemma OwnEntryOk(job: Job, base: Tables, n: Serials, a: Attempt, b: Attempt, k: nat)
    requires Inv(job, base, n, b) && Mirrors(a, b) && k < |a.queue| && !a.queue[k].stmt.Read?
    ensures a.queue[k] in b.queue && EntryOk(job, base, a, a.queue[k])
  {
    var i := OwnIndex(a.queue, k);
    assert EntryOk(job, base, b, b.queue[i]);
  }

  lemma OwnHeadOk(job: Job, base: Tables, n: Serials, a: Attempt, b: Attempt)
    requires Inv(job, base, n, b) && Mirrors(a, b) && a.queue != [] && !a.queue[0].stmt.Read?
    ensures b.queue == Own(a.queue) && b.queue != [] && b.queue[0] == a.queue[0]
    ensures EntryOk(job, base, a, a.queue[0])
  {
    OwnHead(a.queue);
    assert EntryOk(job, base, b, b.queue[0]);
  }

  // ------------------------------------------------------------ answered reads

  /** Every reader asks for an integer in the range of the column, and is answered. */
  ghost predicate Answered(choices: seq<Choice>) {
    forall c :: c in choices ==> c.Ask? ==> Answerable(c.request)
  }

  ghost predicate Unspoiled(a: Attempt) {
    !a.spoiled && forall e :: e in a.queue ==> e.stmt.Read? ==> Answerable(e.stmt.request)
  }

  lemma UnspoiledResume(job: Job, a: Attempt, w: Waiter, stmt: Stmt, reply: Reply)
    requires Unspoiled(a)
    ensures Unspoiled(Resume(job, a, w, stmt, reply))
  {}

  lemma UnspoiledStep(job: Job, a: Attempt, c: Choice)
    requires Unspoiled(a) && (c.Ask? ==> Answerable(c.request))
    ensures Unspoiled(Step(job, a, c))
  {
    match c
    case Execute(fault, gap) =>
      if a.queue != [] {
        var (a1, reply) := Executed(a, fault, gap);
        assert forall e :: e in a1.queue ==> e in a.queue;
        UnspoiledResume(job, a1, a.queue[0].waiter, a.queue[0].stmt, reply);
      }
    case Expire(k, withdraw) =>
      if k < |a.queue| && a.queue[k].waiter != Nobody {
        ExpiredEntries(a, k, withdraw);
        UnspoiledResume(job, Expired(a, k, withdraw), a.queue[k].waiter, a.queue[k].stmt, Error);
      }
    case Continue =>
    case Ask(_) =>
  }

  lemma {:induction false} AnsweredUnspoiled(job: Job, base: Tables, n: Serials, choices: seq<Choice>)
    requires Answered(choices)
    ensures Unspoiled(Run(job, Start(base, n), choices))
  {
    if choices == [] {
    } else {
      var front := choices[..|choices| - 1];
      assert forall c :: c in front ==> c in choices;
      AnsweredUnspoiled(job, base, n, front);
      UnspoiledStep(job, Run(job, Start(base, n), front), choices[|choices| - 1]);
    }
  }

  // --------------------------------------------------------- when a block is lost

  /** The step makes a reader's statement fail in the open transaction. */
  ghost predicate ReadFails(a: Attempt, c: Choice) {
    && c.Execute? && a.queue != [] && a.queue[0].stmt.Read?
    && !Answerable(a.queue[0].stmt.request) && a.server.session.Open?
  }

  lemma SpoiledResume(job: Job, a: Attempt, w: Waiter, stmt: Stmt, reply: Reply)
    ensures Resume(job, a, w, stmt, reply).spoiled == a.spoiled
  {}

  lemma SpoiledStep(job: Job, a: Attempt, c: Choice)
    ensures Step(job, a, c).spoiled <==> a.spoiled || ReadFails(a, c)
  {
    match c
    case Execute(fault, gap) =>
      if a.queue != [] {
        var (a1, reply) := Executed(a, fault, gap);
        SpoiledResume(job, a1, a.queue[0].waiter, a.queue[0].stmt, reply);
      }
    case Expire(k, withdraw) =>
      if k < |a.queue| && a.queue[k].waiter != Nobody {
        SpoiledResume(job, Expired(a, k, withdraw), a.queue[k].waiter, a.queue[k].stmt, Error);
      }
    case Continue =>
    case Ask(_) =>
  }

  /** The k-th step of a run makes a read fail. */
  ghost predicate FailsAt(job: Job, start: Attempt, choices: seq<Choice>, k: nat) {
    k < |choices| && ReadFails(Run(job, start, choices[..k]), choices[k])
  }

  lemma FailureSpoils(job: Job, a: Attempt, c: Choice)
    requires a.spoiled || ReadFails(a, c)
    ensures Step(job, a, c).spoiled
  {
    SpoiledStep(job, a, c);
  }

  lemma {:induction false} SpoiledAfter(job: Job, a: Attempt, more: seq<Choice>)
    requires a.spoiled
    ensures Run(job, a, more).spoiled
  {
    if more == [] {
    } else {
      SpoiledAfter(job, a, more[..|more| - 1]);
      SpoiledStep(job, Run(job, a, more[..|more| - 1]), more[|more| - 1]);
    }
  }

  lemma SpoiledFrom(job: Job, start: Attempt, choices: seq<Choice>, k: nat)
    requires FailsAt(job, start, choices, k)
    ensures Run(job, start, choices).spoiled
  {
    FailureSpoils(job, Run(job, start, choices[..k]), choices[k]);
    SpoiledAfter(job, Step(job, Run(job, start, choices[..k]), choices[k]), choices[k + 1..]);
    RunSplit(job, start, choices, k);
  }

  lemma {:induction false} SpoiledBy(job: Job, start: Attempt, choices: seq<Choice>) returns (k: nat)
    requires !start.spoiled && Run(job, start, choices).spoiled
    ensures FailsAt(job, start, choices, k)
  {
    var front := choices[..|choices| - 1];
    k := |front|;
    SpoiledStep(job, Run(job, start, front), choices[k]);
    if Run(job, start, front).spoiled {
      k := SpoiledBy(job, start, front);
      assert front[..k] == choices[..k];
    }
  }

  /** A read has failed while a task still had a statement to execute: the attempt will be rolled back. */
  ghost predicate Doomed(a: Attempt) {
    && a.spoiled && a.main !in {AwaitBegin, AwaitCommit, Resolved}
    && (a.rejections == [] ==>
          a.main == Running && a.server.session.Failed? && !(a.insert == InsertDone && a.update == UpdateDone))
  }

  lemma DoomedResume(job: Job, base: Tables, a: Attempt, e: Entry, reply: Reply)
    requires Doomed(a) && EntryOk(job, base, a, e)
    requires a.rejections == [] ==> reply.Error? && !Control(e.stmt)
    ensures Doomed(Resume(job, a, e.waiter, e.stmt, reply))
  {}

  lemma DoomedExecutes(job: Job, base: Tables, n: Serials, a: Attempt, b: Attempt, fault: bool, gap: Serials)
    requires Inv(job, base, n, b) && Mirrors(a, b) && Doomed(a) && a.queue != []
    ensures Doomed(Step(job, a, Execute(fault, gap)))
  {
    if !a.queue[0].stmt.Read? {
      OwnHeadOk(job, base, n, a, b);
      var (a1, reply) := Executed(a, fault, gap);
      DoomedResume(job, base, a1, a.queue[0], reply);
    }
  }

  lemma DoomedStep(job: Job, base: Tables, n: Serials, a: Attempt, c: Choice)
    requires JobOk(job) && Consistent(base, n) && SharedInv(job, base, n, a) && Doomed(a)
    ensures Doomed(Step(job, a, c))
  {
    var b :| Inv(job, base, n, b) && Mirrors(a, b);
    match c
    case Execute(fault, gap) => if a.queue != [] { DoomedExecutes(job, base, n, a, b, fault, gap); }
    case Expire(k, withdraw) =>
      if k < |a.queue| && a.queue[k].waiter != Nobody && !a.queue[k].stmt.Read? {
        DoomedExpires(job, base, n, a, b, k, withdraw);
      }
    case Continue => DoomedContinues(job, a);
    case Ask(_) =>
  }

  lemma DoomedContinues(job: Job, a: Attempt)
    requires Doomed(a)
    ensures Doomed(Step(job, a, Continue))
  {}

  lemma DoomedExpires(job: Job, base: Tables, n: Serials, a: Attempt, b: Attempt, k: nat, withdraw: bool)
    requires Inv(job, base, n, b) && Mirrors(a, b) && Doomed(a)
    requires k < |a.queue| && a.queue[k].waiter != Nobody && !a.queue[k].stmt.Read?
    ensures Doomed(Step(job, a, Expire(k, withdraw)))
  {
    var i := OwnIndex(a.queue, k);
    OwnEntryOk(job, base, n, a, b, k);
    DoomedResume(job, base, Expired(a, k, withdraw), a.queue[k], Error);
  }

  /** The whole block with its checkpoint is in the open transaction and both tasks have ended. */
  ghost predicate AllWritten(job: Job, base: Tables, a: Attempt) {
    && job.body.Store? && a.insert == InsertDone && a.update == UpdateDone && a.rejections == []
    && a.server.session == Open(Target(job, base, a.at))
  }

  lemma FailureDooms(job: Job, base: Tables, n: Serials, a: Attempt, c: Choice)
    requires JobOk(job) && Consistent(base, n) && SharedInv(job, base, n, a) && ReadFails(a, c)
    ensures AllWritten(job, base, a) || Doomed(Step(job, a, c))
  {
    var b :| Inv(job, base, n, b) && Mirrors(a, b);
    if a.main == Running && a.rejections == [] && a.insert == InsertDone && a.update == UpdateDone {
      BothDone(job, base, n, b);
    }
  }

  lemma {:induction false} DoomedAfter(job: Job, base: Tables, n: Serials, a: Attempt, more: seq<Choice>)
    requires JobOk(job) && Consistent(base, n) && SharedInv(job, base, n, a) && Doomed(a)
    ensures SharedInv(job, base, n, Run(job, a, more)) && Doomed(Run(job, a, more))
  {
    if more == [] {
    } else {
      var b, c := Run(job, a, more[..|more| - 1]), more[|more| - 1];
      DoomedAfter(job, base, n, a, more[..|more| - 1]);
      DoomedStep(job, base, n, b, c);
      StepKeeps(job, base, n, b, c);
    }
  }

  lemma DoomedRun(job: Job, base: Tables, n: Serials, choices: seq<Choice>, k: nat)
    requires JobOk(job) && Consistent(base, n) && FailsAt(job, Start(base, n), choices, k)
    ensures AllWritten(job, base, Run(job, Start(base, n), choices[..k])) || Doomed(Run(job, Start(base, n), choices))
  {
    var a := Run(job, Start(base, n), choices[..k]);
    RunKeeps(job, base, n, choices[..k]);
    FailureDooms(job, base, n, a, choices[k]);
    if !AllWritten(job, base, a) {
      StepKeeps(job, base, n, a, choices[k]);
      DoomedAfter(job, base, n, Step(job, a, choices[k]), choices[k + 1..]);
      RunSplit(job, Start(base, n), choices, k);
    }
  }

  lemma ResolvedApplied(job: Job, base: Tables, n: Serials, a: Attempt)
    requires SharedInv(job, base, n, a) && a.main == Resolved
    ensures a.applied <==> !a.spoiled
  {}

  lemma FailureLoses(job: Job, base: Tables, n: Serials, choices: seq<Choice>, k: nat)
    requires JobOk(job) && Consistent(base, n) && FailsAt(job, Start(base, n), choices, k)
    requires Run(job, Start(base, n), choices).main == Resolved
    ensures AllWritten(job, base, Run(job, Start(base, n), choices[..k]))
    ensures !Run(job, Start(base, n), choices).applied
  {
    DoomedRun(job, base, n, choices, k);
    SpoiledFrom(job, Start(base, n), choices, k);
    RunKeeps(job, base, n, choices);
    ResolvedApplied(job, base, n, Run(job, Start(base, n), choices));
  }

  lemma LostBy(job: Job, base: Tables, n: Serials, choices: seq<Choice>) returns (k: nat)
    requires JobOk(job) && Consistent(base, n)
    requires Run(job, Start(base, n), choices).main == Resolved && !Run(job, Start(base, n), choices).applied
    ensures FailsAt(job, Start(base, n), choices, k)
  {
    RunKeeps(job, base, n, choices);
    ResolvedApplied(job, base, n, Run(job, Start(base, n), choices));
    k := SpoiledBy(job, Start(base, n), choices);
  }

  /** No read fails in the open transaction when everything is written and COMMIT is still to come. */
  ghost predicate Spared(job: Job, base: Tables, n: Serials, choices: seq<Choice>) {
    forall k: nat :: FailsAt(job, Start(base, n), choices, k) ==>
      !AllWritten(job, base, Run(job, Start(base, n), choices[..k]))
  }

  /** Exactly when a block is lost, reported as stored although nothing was: when some read failed in the open
      transaction after the last statement of both tasks and before COMMIT. No other read can fail in the open
      transaction of an attempt that is reported as a success. */
  lemma LostExactly(job: Job, base: Tables, n: Serials, choices: seq<Choice>)
    requires JobOk(job) && Consistent(base, n)
    requires Run(job, Start(base, n), choices).main == Resolved
    ensures Run(job, Start(base, n), choices).applied <==> Spared(job, base, n, choices)
    ensures forall k: nat :: FailsAt(job, Start(base, n), choices, k) ==>
              AllWritten(job, base, Run(job, Start(base, n), choices[..k]))
  {
    forall k: nat | FailsAt(job, Start(base, n), choices, k)
      ensures AllWritten(job, base, Run(job, Start(base, n), choices[..k]))
      ensures !Run(job, Start(base, n), choices).applied
    {
      FailureLoses(job, base, n, choices, k);
    }
    if !Run(job, Start(base, n), choices).applied {
      var k := LostBy(job, base, n, choices);
      assert !Spared(job, base, n, choices);
    }
  }

  /** Answering every read is enough for that. */
  lemma AnsweredSpared(job: Job, base: Tables, n: Serials, choices: seq<Choice>)
    requires Answered(choices)
    ensures Spared(job, base, n, choices)
  {
    forall k: nat ensures !FailsAt(job, Start(base, n), choices, k) {
      if FailsAt(job, Start(base, n), choices, k) {
        SpoiledFrom(job, Start(base, n), choices, k);
        AnsweredUnspoiled(job, base, n, choices);
      }
    }
  }
}
