/** Every interleaving of an attempt that has its connection to itself: what it may leave behind. */
module ProtocolProofs {
  import opened RawData
  import opened Database
  import opened BlockSync
  import opened BlockStore
  import opened CommitProtocol

  // ------------------------------------------------------- the server's half step

  lemma ExecutedKeepsQueue(job: Job, base: Tables, n: Serials, a: Attempt, fault: bool, gap: Serials)
    requires Safe(job, base, n, a) && a.queue != []
    ensures QueueOk(job, base, Executed(a, fault, gap).0)
  {
    var a1 := Executed(a, fault, gap).0;
    assert forall i :: 0 <= i < |a1.queue| ==> a1.queue[i] == a.queue[i + 1];
  }

  lemma ExecutedControl(job: Job, base: Tables, n: Serials, a: Attempt, fault: bool, gap: Serials)
    requires Safe(job, base, n, a) && a.queue != [] && Control(a.queue[0].stmt)
    ensures SessionOk(job, base, n, Executed(a, fault, gap).0)
  {
    var a1 := Executed(a, fault, gap).0;
    assert forall i :: 0 <= i < |a1.queue| ==> a1.queue[i] == a.queue[i + 1];
  }

  lemma ExecutedOutside(job: Job, base: Tables, n: Serials, a: Attempt, fault: bool, gap: Serials)
    requires Safe(job, base, n, a) && a.queue != [] && !Control(a.queue[0].stmt) && a.server.session.Idle?
    ensures SessionOk(job, base, n, Executed(a, fault, gap).0)
  {
    var a1 := Executed(a, fault, gap).0;
    assert forall i :: 0 <= i < |a1.queue| ==> a1.queue[i] == a.queue[i + 1];
    assert EntryOk(job, base, a, a.queue[0]);
    LateInsertExact(a.server.(serials := Skip(a.server.serials, gap)), a.queue[0].stmt);
  }

  /** A data statement in a transaction touches nothing outside it, and takes no block away. */
  lemma InsideOnly(s: Server, stmt: Stmt, fault: bool)
    requires !Control(stmt) && !s.session.Idle?
    ensures var s' := Exec(s, stmt, fault).0;
            && s'.committed == s.committed && !s'.session.Idle? && SerialsLeq(s.serials, s'.serials)
            && (s'.session.Open? ==> s.session.Open? && s.session.work.blocks.Keys <= s'.session.work.blocks.Keys)
  {}

  lemma ExecutedInside(job: Job, base: Tables, n: Serials, a: Attempt, fault: bool, gap: Serials)
    requires Safe(job, base, n, a) && a.queue != [] && !Control(a.queue[0].stmt) && !a.server.session.Idle?
    ensures SessionOk(job, base, n, Executed(a, fault, gap).0)
  {
    var a1 := Executed(a, fault, gap).0;
    assert forall i :: 0 <= i < |a1.queue| ==> a1.queue[i] == a.queue[i + 1];
    assert EntryOk(job, base, a, a.queue[0]);
    InsideOnly(a.server.(serials := Skip(a.server.serials, gap)), a.queue[0].stmt, fault);
  }

  lemma ExecutedKeepsControl(job: Job, base: Tables, n: Serials, a: Attempt, fault: bool, gap: Serials)
    requires Safe(job, base, n, a) && a.queue != []
    ensures ControlOk(job, base, Executed(a, fault, gap).0)
  {
    var a1 := Executed(a, fault, gap).0;
    assert forall i :: 0 <= i < |a1.queue| ==> a1.queue[i] == a.queue[i + 1];
  }

  lemma ExecutedKeeps(job: Job, base: Tables, n: Serials, a: Attempt, fault: bool, gap: Serials)
    requires Safe(job, base, n, a) && a.queue != []
    ensures Safe(job, base, n, Executed(a, fault, gap).0)
  {
    ExecutedKeepsQueue(job, base, n, a, fault, gap);
    if Control(a.queue[0].stmt) {
      ExecutedControl(job, base, n, a, fault, gap);
    } else {
      if a.server.session.Idle? {
        ExecutedOutside(job, base, n, a, fault, gap);
      } else {
        ExecutedInside(job, base, n, a, fault, gap);
      }
    }
    ExecutedKeepsControl(job, base, n, a, fault, gap);
  }

  lemma ExpiredEntries(a: Attempt, k: nat, withdraw: bool)
    requires k < |a.queue|
    ensures var q, q1 := a.queue, Expired(a, k, withdraw).queue;
            && |q1| <= |q| <= |q1| + 1
            && (forall i :: 0 <= i < |q1| ==>
                  || q1[i] == q[i]
                  || (i == k && q1[i] == Entry(q[i].stmt, Nobody) && |q1| == |q|)
                  || (i >= k && i + 1 < |q| && q1[i] == q[i + 1] && |q1| < |q|))
            && (forall i :: 0 <= i < |q1| && |q1| < |q| ==> q1[i] == if i < k then q[i] else q[i + 1])
            && (forall i :: 0 <= i < |q1| ==> q1[i].stmt == if |q1| == |q| || i < k then q[i].stmt else q[i + 1].stmt)
  {}

  lemma ExpiredKeepsQueue(job: Job, base: Tables, a: Attempt, k: nat, withdraw: bool)
    requires QueueOk(job, base, a) && k < |a.queue|
    ensures QueueOk(job, base, Expired(a, k, withdraw))
  {
    ExpiredEntries(a, k, withdraw);
  }

  lemma MarkedKeepsSession(job: Job, base: Tables, n: Serials, a: Attempt, k: nat)
    requires SessionOk(job, base, n, a) && k < |a.queue|
    ensures SessionOk(job, base, n, Expired(a, k, false))
  {
    var q, q1 := a.queue, Expired(a, k, false).queue;
    assert |q1| == |q| && forall i :: 0 <= i < |q| ==> q1[i].stmt == q[i].stmt;
  }

  lemma WithdrawnKeepsSession(job: Job, base: Tables, n: Serials, a: Attempt, k: nat)
    requires SessionOk(job, base, n, a) && k < |a.queue|
    ensures SessionOk(job, base, n, Expired(a, k, true))
  {
    var q, q1 := a.queue, Expired(a, k, true).queue;
    assert |q1| == |q| - 1 && forall i :: 0 <= i < |q1| ==> q1[i] == q[if i < k then i else i + 1];
  }

  lemma ExpiredKeepsSession(job: Job, base: Tables, n: Serials, a: Attempt, k: nat, withdraw: bool)
    requires SessionOk(job, base, n, a) && k < |a.queue|
    ensures SessionOk(job, base, n, Expired(a, k, withdraw))
  {
    if withdraw { WithdrawnKeepsSession(job, base, n, a, k); } else { MarkedKeepsSession(job, base, n, a, k); }
  }

  lemma ExpiredKeeps(job: Job, base: Tables, n: Serials, a: Attempt, k: nat, withdraw: bool)
    requires Safe(job, base, n, a) && k < |a.queue|
    ensures Safe(job, base, n, Expired(a, k, withdraw))
  {
    ExpiredKeepsQueue(job, base, a, k, withdraw);
    ExpiredKeepsSession(job, base, n, a, k, withdraw);
    ExpiredEntries(a, k, withdraw);
  }

  // -------------------------------------------------------- the client's half step

  /** What is known when a reply is handed to a waiting activity. */
  ghost predicate Handed(job: Job, base: Tables, n: Serials, a: Attempt, w: Waiter, stmt: Stmt, reply: Reply) {
    && w != Nobody
    && EntryOk(job, base, a, Entry(stmt, w))
    && (forall i :: 0 <= i < |a.queue| ==> a.queue[i].waiter != w)
    && (w != Main ==> a.main !in {AwaitBegin, AwaitCommit, Resolved})
    && (stmt.InsertBlock? && reply.Ok? ==> job.height !in base.blocks)
    && (stmt.InsertTransactions? && reply.Ok? ==> forall i :: 0 <= i < |reply.rows| ==> n.tx <= reply.rows[i].1)
    && (stmt.Begin? && reply.Ok? ==> a.queue == [] && a.server.session.Open? && !a.applied)
    && (stmt.Commit? && reply.Ok? ==> a.applied && a.queue == [])
    && (stmt.Rollback? && reply.Ok? ==>
          a.server.session.Idle? && forall i :: 0 <= i < |a.queue| ==> ChildInsert(a.queue[i].stmt))
  }

  lemma {:induction false} IdMapFrom(rows: seq<(nat, nat)>, from: nat)
    requires forall i :: 0 <= i < |rows| ==> from <= rows[i].1
    ensures forall k :: k in IdMap(rows) ==> from <= IdMap(rows)[k]
  {
    if rows == [] {
    } else {
      IdMapFrom(rows[..|rows| - 1], from);
    }
  }

  lemma LinkedLate(base: Tables, n: Serials, messages: seq<MessageCore>, ids: map<nat, nat>, height: int)
    requires Consistent(base, n) && messages != []
    requires forall k :: k in ids ==> n.tx <= ids[k]
    ensures Late(base, InsertMessages(Link(messages, ids), height))
  {
    assert Link(messages, ids)[0] in Link(messages, ids);
  }

  /** A message insert built from ids drawn after the attempt began finds no parent in `base`. */
  lemma MessagesLate(base: Tables, n: Serials, messages: seq<MessageCore>, rows: seq<(nat, nat)>, height: int)
    requires Consistent(base, n) && messages != []
    requires forall i :: 0 <= i < |rows| ==> n.tx <= rows[i].1
    ensures Late(base, InsertMessages(Link(messages, IdMap(rows)), height))
  {
    IdMapFrom(rows, n.tx);
    LinkedLate(base, n, messages, IdMap(rows), height);
  }

  lemma EnqueueChild(job: Job, base: Tables, n: Serials, a: Attempt, stmt: Stmt, insert: InsertPc)
    requires Safe(job, base, n, a) && job.body.Store? && job.height !in base.blocks
    requires a.insert in {AwaitBlock, AwaitTransactions, AwaitMessages}
    requires forall i :: 0 <= i < |a.queue| ==> a.queue[i].waiter != Inserter
    requires Late(base, stmt)
    requires (stmt.InsertTransactions? && insert == AwaitTransactions) || (stmt.InsertMessages? &&
        insert == AwaitMessages) ||
             (stmt.InsertEvents? && insert == AwaitEvents)
    ensures Safe(job, base, n, Enqueue(a.(insert := insert), stmt, Inserter))
  {
    var a1 := Enqueue(a.(insert := insert), stmt, Inserter);
    assert forall i :: 0 <= i < |a.queue| ==> a1.queue[i] == a.queue[i];
    assert a1.queue[|a.queue|] == Entry(stmt, Inserter);
  }

  lemma ToEventsKeeps(job: Job, base: Tables, n: Serials, a: Attempt)
    requires Safe(job, base, n, a) && job.body.Store? && job.body.core.height == job.height &&
        job.height !in base.blocks
    requires a.insert in {AwaitBlock, AwaitTransactions, AwaitMessages}
    requires forall i :: 0 <= i < |a.queue| ==> a.queue[i].waiter != Inserter
    ensures Safe(job, base, n, ToEvents(job.body.core, a))
  {
    var core := job.body.core;
    if |core.events| > 0 {
      EnqueueChild(job, base, n, a, InsertEvents(core.events, core.time, core.height), AwaitEvents);
    }
  }

  lemma AfterTransactionsKeeps(job: Job, base: Tables, n: Serials, a: Attempt, rows: seq<(nat, nat)>)
    requires JobOk(job) && Consistent(base, n) && Safe(job, base, n, a)
    requires a.insert == AwaitTransactions && job.body.Store? && job.height !in base.blocks
    requires forall i :: 0 <= i < |a.queue| ==> a.queue[i].waiter != Inserter
    requires forall i :: 0 <= i < |rows| ==> n.tx <= rows[i].1
    ensures Safe(job, base, n, AfterTransactions(job.body.core, a, rows))
  {
    var core := job.body.core;
    if |core.messages| > 0 {
      MessagesLate(base, n, core.messages, rows, core.height);
      EnqueueChild(job, base, n, a, InsertMessages(Link(core.messages, IdMap(rows)), core.height), AwaitMessages);
    } else {
      ToEventsKeeps(job, base, n, a);
    }
  }

  lemma AfterBlockKeeps(job: Job, base: Tables, n: Serials, a: Attempt)
    requires JobOk(job) && Safe(job, base, n, a)
    requires a.insert == AwaitBlock && job.body.Store? && job.height !in base.blocks
    requires forall i :: 0 <= i < |a.queue| ==> a.queue[i].waiter != Inserter
    ensures Safe(job, base, n, AfterBlock(job.body.core, a))
  {
    var core := job.body.core;
    if |core.transactions| > 0 {
      EnqueueChild(job, base, n, a, InsertTransactions(core.transactions, core.time, core.height), AwaitTransactions);
    } else {
      ToEventsKeeps(job, base, n, a);
    }
  }

  lemma ResumeInserterKeeps(job: Job, base: Tables, n: Serials, a: Attempt, stmt: Stmt, reply: Reply)
    requires JobOk(job) && Consistent(base, n)
    requires Safe(job, base, n, a) && Handed(job, base, n, a, Inserter, stmt, reply)
    ensures Safe(job, base, n, Resume(job, a, Inserter, stmt, reply))
  {
    if reply.Ok? {
      match a.insert
      case AwaitBlock => AfterBlockKeeps(job, base, n, a);
      case AwaitTransactions => AfterTransactionsKeeps(job, base, n, a, reply.rows);
      case AwaitMessages => ToEventsKeeps(job, base, n, a);
      case _ =>
    }
  }

  lemma ResumeUpdaterKeeps(job: Job, base: Tables, n: Serials, a: Attempt, stmt: Stmt, reply: Reply)
    requires Safe(job, base, n, a) && Handed(job, base, n, a, Updater, stmt, reply)
    ensures Safe(job, base, n, Resume(job, a, Updater, stmt, reply))
  {}

  lemma ToRollbackKeeps(job: Job, base: Tables, n: Serials, a: Attempt)
    requires QueueOk(job, base, a) && SessionOk(job, base, n, a)
    requires PastBlock(a.insert) ==> job.body.Store? && job.height !in base.blocks
    requires a.insert == AwaitBlock ==> job.body.Store?
    requires a.rejections != [] && a.rejections[0] != Rejected(Rollback)
    requires a.main in {AwaitBegin, Running, AwaitCommit} && a.releases == 0 && !a.destroyed
    requires forall i :: 0 <= i < |a.queue| ==> !a.queue[i].stmt.Rollback? && a.queue[i].waiter != Main
    ensures Safe(job, base, n, ToRollback(a, a.rejections[0]))
  {
    var a1 := ToRollback(a, a.rejections[0]);
    assert forall i :: 0 <= i < |a.queue| ==> a1.queue[i] == a.queue[i];
    assert a1.queue[|a.queue|] == Entry(Rollback, Main);
  }

  lemma StartBodyThrows(job: Job, base: Tables, n: Serials, a: Attempt)
    requires Safe(job, base, n, a) && a.main == AwaitBegin && !job.body.Store?
    requires a.queue == [] && a.server.session.Open? && !a.applied
    ensures Safe(job, base, n, StartBody(job, a))
  {}

  lemma StartBodyStores(job: Job, base: Tables, n: Serials, a: Attempt)
    requires JobOk(job)
    requires Safe(job, base, n, a) && a.main == AwaitBegin && job.body.Store?
    requires a.queue == [] && a.server.session.Open? && !a.applied
    ensures Safe(job, base, n, StartBody(job, a))
  {
    var core, a1 := job.body.core, StartBody(job, a);
    assert a1.queue == [Entry(InsertBlock(core.height, core.hash, core.time), Inserter),
                        Entry(UpdateChain(job.chainId, job.height), Updater)];
  }

  lemma DestroyKeeps(job: Job, base: Tables, n: Serials, a: Attempt, f: Failure)
    requires Safe(job, base, n, a) && a.main.AwaitRollback?
    ensures Safe(job, base, n, Destroy(Reject(a, f), a.main.cause))
  {}

  lemma ResumeMainOk(job: Job, base: Tables, n: Serials, a: Attempt, stmt: Stmt, reply: Reply)
    requires JobOk(job) && reply.Ok?
    requires Safe(job, base, n, a) && Handed(job, base, n, a, Main, stmt, reply)
    ensures Safe(job, base, n, Resume(job, a, Main, stmt, reply))
  {
    if stmt.Begin? {
      if job.body.Store? { StartBodyStores(job, base, n, a); } else { StartBodyThrows(job, base, n, a); }
    }
  }

  lemma ResumeMainError(job: Job, base: Tables, n: Serials, a: Attempt, stmt: Stmt, reply: Reply)
    requires JobOk(job) && reply.Error?
    requires Safe(job, base, n, a) && Handed(job, base, n, a, Main, stmt, reply)
    ensures Safe(job, base, n, Resume(job, a, Main, stmt, reply))
  {
    if a.main.AwaitRollback? {
      DestroyKeeps(job, base, n, a, Rejected(stmt));
    } else {
      var a1 := Reject(a, Rejected(stmt));
      assert QueueOk(job, base, a1) && SessionOk(job, base, n, a1);
      ToRollbackKeeps(job, base, n, a1);
    }
  }

  lemma HandedExecuted(job: Job, base: Tables, n: Serials, a: Attempt, fault: bool, gap: Serials)
    requires Inv(job, base, n, a) && a.queue != [] && a.queue[0].waiter != Nobody
    ensures var (a1, reply) := Executed(a, fault, gap);
            Handed(job, base, n, a1, a.queue[0].waiter, a.queue[0].stmt, reply)
  {
    var e := a.queue[0];
    var (a1, reply) := Executed(a, fault, gap);
    assert EntryOk(job, base, a, e);
    assert forall i :: 0 <= i < |a1.queue| ==> a1.queue[i] == a.queue[i + 1];
  }

  lemma HandedExpired(job: Job, base: Tables, n: Serials, a: Attempt, k: nat, withdraw: bool)
    requires Inv(job, base, n, a) && k < |a.queue| && a.queue[k].waiter != Nobody
    ensures Handed(job, base, n, Expired(a, k, withdraw), a.queue[k].waiter, a.queue[k].stmt, Error)
  {
    assert EntryOk(job, base, a, a.queue[k]);
    ExpiredEntries(a, k, withdraw);
  }

  lemma ResumeKeeps(job: Job, base: Tables, n: Serials, a: Attempt, w: Waiter, stmt: Stmt, reply: Reply)
    requires JobOk(job) && Consistent(base, n)
    requires Safe(job, base, n, a) && Handed(job, base, n, a, w, stmt, reply)
    ensures Safe(job, base, n, Resume(job, a, w, stmt, reply))
  {
    match w
    case Main =>
      if reply.Ok? {
        ResumeMainOk(job, base, n, a, stmt, reply);
      } else {
        ResumeMainError(job, base, n, a, stmt, reply);
      }
    case Inserter => ResumeInserterKeeps(job, base, n, a, stmt, reply);
    case Updater => ResumeUpdaterKeeps(job, base, n, a, stmt, reply);
    case Nobody =>
  }

  lemma BothDone(job: Job, base: Tables, n: Serials, a: Attempt)
    requires JobOk(job) && Consistent(base, n) && Inv(job, base, n, a)
    requires a.main == Running && a.rejections == [] && a.insert == InsertDone && a.update == UpdateDone
    ensures a.queue == [] && !a.applied && Complete(job, base, n, a)
    ensures a.server.session == Open(Target(job, base, a.at))
  {
    assert DoneSoFar(a) == ALL;
  }

  lemma CommitKeeps(job: Job, base: Tables, n: Serials, a: Attempt)
    requires Safe(job, base, n, a) && a.queue == [] && !a.applied && Complete(job, base, n, a)
    requires a.main == Running && a.rejections == []
    requires a.server.session == Open(Target(job, base, a.at))
    ensures Safe(job, base, n, Enqueue(a.(main := AwaitCommit), Commit, Main))
  {}

  /** Every step keeps the safety part of the invariant. */
  lemma StepSafe(job: Job, base: Tables, n: Serials, a: Attempt, c: Choice)
    requires JobOk(job) && Consistent(base, n) && Inv(job, base, n, a) && !c.Ask?
    ensures Safe(job, base, n, Step(job, a, c))
  {
    match c
    case Execute(fault, gap) =>
      if a.queue != [] {
        ExecutedKeeps(job, base, n, a, fault, gap);
        if a.queue[0].waiter != Nobody {
          var (a1, reply) := Executed(a, fault, gap);
          HandedExecuted(job, base, n, a, fault, gap);
          ResumeKeeps(job, base, n, a1, a.queue[0].waiter, a.queue[0].stmt, reply);
        }
      }
    case Expire(k, withdraw) =>
      if k < |a.queue| && a.queue[k].waiter != Nobody {
        ExpiredKeeps(job, base, n, a, k, withdraw);
        HandedExpired(job, base, n, a, k, withdraw);
        ResumeKeeps(job, base, n, Expired(a, k, withdraw), a.queue[k].waiter, a.queue[k].stmt, Error);
      }
    case Continue =>
      if a.main == Running {
        if a.rejections != [] {
          assert forall i :: 0 <= i < |a.queue| ==> EntryOk(job, base, a, a.queue[i]);
          ToRollbackKeeps(job, base, n, a);
        } else if a.insert == InsertDone && a.update == UpdateDone {
          BothDone(job, base, n, a);
          CommitKeeps(job, base, n, a);
        }
      }
  }

  // ------------------------------------------------- exactness without rejections

  lemma WriteBlock(base: Tables, chainId: string, core: BlockCore, p: Progress, at: Serials, n: Serials)
    requires !p.block && !p.txs && !p.messages && !p.events
    ensures var r := Change(Written(base, chainId, core, p, at), n, InsertBlock(core.height, core.hash, core.time));
            r.Some? ==> r.value == Written(base, chainId, core, p.(block := true), at)
  {}

  lemma WriteTransactions(base: Tables, chainId: string, core: BlockCore, p: Progress, at: Serials, n: Serials)
    requires !p.txs && !p.messages
    ensures var r := Change(Written(base, chainId, core, p, at), n, InsertTransactions(core.transactions, core.time,
        core.height));
            r.Some? ==> r.value == Written(base, chainId, core, p.(txs := true), at.(tx := n.tx))
  {
    assert base.txs + [] == base.txs;
  }

  lemma WriteMessages(base: Tables, chainId: string, core: BlockCore, p: Progress, at: Serials, n: Serials)
    requires !p.messages
    ensures var r := Change(Written(base, chainId, core, p, at), n, InsertMessages(LinkedMessages(core, at.tx),
        core.height));
            r.Some? ==> r.value == Written(base, chainId, core, p.(messages := true), at.(message := n.message))
  {
    assert base.messages + [] == base.messages;
  }

  lemma WriteEvents(base: Tables, chainId: string, core: BlockCore, p: Progress, at: Serials, n: Serials)
    requires !p.events
    ensures var r := Change(Written(base, chainId, core, p, at), n, InsertEvents(core.events, core.time, core.height));
            r.Some? ==> r.value == Written(base, chainId, core, p.(events := true), at.(event := n.event))
  {
    assert base.events + [] == base.events;
  }

  lemma WriteChain(base: Tables, chainId: string, core: BlockCore, p: Progress, at: Serials, n: Serials)
    requires !p.chain
    ensures var r := Change(Written(base, chainId, core, p, at), n, UpdateChain(chainId, core.height));
            r.Some? && r.value == Written(base, chainId, core, p.(chain := true), at)
  {}

  /** Writes of empty lists are skipped without loss: a block without transactions has no messages. */
  lemma SkippedWrites(base: Tables, chainId: string, core: BlockCore, p: Progress, at: Serials)
    requires Linked(core)
    ensures core.transactions == [] ==> core.messages == []
    ensures core.transactions == [] ==>
        Written(base, chainId, core, p, at) == Written(base, chainId, core, p.(txs := true), at)
    ensures core.messages == [] ==>
              Written(base, chainId, core, p, at) == Written(base, chainId, core, p.(messages := true), at)
    ensures core.events == [] ==>
              Written(base, chainId, core, p, at) == Written(base, chainId, core, p.(events := true), at)
  {
    if core.messages != [] {
      assert core.messages[0] in core.messages;
    }
    assert core.transactions == [] ==> TxRows(core.transactions, at.tx, core.time, core.height) == [];
    assert core.messages == [] ==> MessageRows(LinkedMessages(core, at.tx), at.message, core.height) == [];
    assert core.events == [] ==> EventRows(core.events, at.event, core.time, core.height) == [];
  }

  lemma NothingWritten(base: Tables, chainId: string, core: BlockCore, at: Serials)
    ensures Written(base, chainId, core, Progress(false, false, false, false, false), at) == base
  {
    assert base.txs + [] == base.txs && base.messages + [] == base.messages && base.events + [] == base.events;
  }

  lemma ExactBegin(job: Job, base: Tables, n: Serials, a: Attempt, c: Choice)
    requires JobOk(job) && Inv(job, base, n, a) && a.main == AwaitBegin && a.rejections == []
    requires c.Execute? && Step(job, a, c).rejections == []
    ensures Exact(job, base, n, Step(job, a, c))
  {
    if job.body.Store? {
      NothingWritten(base, job.chainId, job.body.core, n);
    }
  }

  lemma UpdateExact(job: Job, base: Tables, n: Serials, a: Attempt, b: Attempt)
    requires Exact(job, base, n, a) && a.main == Running && a.update == AwaitUpdate && a.insert != AwaitBlock
    requires SerialsLeq(a.server.serials, b.server.serials)
    requires b == a.(server := b.server, queue := PendingInsert(job.body.core, a), update := UpdateDone)
    requires b.server.session == Open(Written(base, job.chainId, job.body.core, DoneSoFar(a).(chain := true), a.at))
    ensures Exact(job, base, n, b)
  {
    assert DoneSoFar(b) == DoneSoFar(a).(chain := true);
  }

  lemma ExactUpdate(job: Job, base: Tables, n: Serials, a: Attempt, c: Choice)
    requires JobOk(job) && Inv(job, base, n, a) && a.main == Running && a.rejections == []
    requires c.Execute? && Step(job, a, c).rejections == []
    requires a.queue != [] && a.queue[0].waiter == Updater
    ensures Exact(job, base, n, Step(job, a, c))
  {
    WriteChain(base, job.chainId, job.body.core, DoneSoFar(a), a.at, Skip(a.server.serials, c.gap));
    assert a.insert != AwaitBlock;
    assert a.queue[1..] == PendingInsert(job.body.core, a);
    UpdateExact(job, base, n, a, Step(job, a, c));
  }

  lemma ToEventsExact(job: Job, base: Tables, n: Serials, a: Attempt)
    requires JobOk(job) && job.body.Store? && a.main == Running && !a.applied && !a.destroyed
    requires a.update in {AwaitUpdate, UpdateDone} && a.insert in {AwaitBlock, AwaitTransactions, AwaitMessages}
    requires var core := job.body.core;
             var done := Progress(true, true, true, false, a.update == UpdateDone);
             && SerialsLeq(n, a.at) && SerialsLeq(a.at, a.server.serials)
             && a.at.tx + |core.transactions| <= a.server.serials.tx
             && a.at.message + |core.messages| <= a.server.serials.message
             && a.queue == PendingUpdate(job, a)
             && a.server.session == Open(Written(base, job.chainId, core, done, a.at))
    ensures Exact(job, base, n, ToEvents(job.body.core, a))
  {
    SkippedWrites(base, job.chainId, job.body.core, Progress(true, true, true, false, a.update == UpdateDone), a.at);
  }

  lemma ExactAfterBlock(job: Job, base: Tables, n: Serials, a: Attempt, c: Choice)
    requires JobOk(job) && Inv(job, base, n, a) && a.main == Running && a.rejections == []
    requires c.Execute? && Step(job, a, c).rejections == []
    requires a.queue != [] && a.queue[0].waiter == Inserter && a.insert == AwaitBlock
    ensures Exact(job, base, n, Step(job, a, c))
  {
    var core, upd := job.body.core, a.update == UpdateDone;
    WriteBlock(base, job.chainId, core, DoneSoFar(a), a.at, Skip(a.server.serials, c.gap));
    assert a.queue[1..] == PendingUpdate(job, a);
    if |core.transactions| == 0 {
      var (a1, reply) := Executed(a, c.fault, c.gap);
      SkippedWrites(base, job.chainId, core, Progress(true, false, false, false, upd), a.at);
      SkippedWrites(base, job.chainId, core, Progress(true, true, false, false, upd), a.at);
      ToEventsExact(job, base, n, a1);
    }
  }

  lemma ExactAfterTransactions(job: Job, base: Tables, n: Serials, a: Attempt, c: Choice)
    requires JobOk(job) && Inv(job, base, n, a) && a.main == Running && a.rejections == []
    requires c.Execute? && Step(job, a, c).rejections == []
    requires a.queue != [] && a.queue[0].waiter == Inserter && a.insert == AwaitTransactions
    ensures Exact(job, base, n, Step(job, a, c))
  {
    var core, upd, n1 := job.body.core, a.update == UpdateDone, Skip(a.server.serials, c.gap);
    var (a1, reply) := Executed(a, c.fault, c.gap);
    WriteTransactions(base, job.chainId, core, DoneSoFar(a), a.at, n1);
    assert a.queue[1..] == PendingUpdate(job, a);
    assert Returning(n1, a.queue[0].stmt) == TxIdPairs(core.transactions, n1.tx);
    if |core.messages| == 0 {
      SkippedWrites(base, job.chainId, core, Progress(true, true, false, false, upd), a1.at);
      ToEventsExact(job, base, n, a1);
    }
  }

  lemma ExactAfterMessages(job: Job, base: Tables, n: Serials, a: Attempt, c: Choice)
    requires JobOk(job) && Inv(job, base, n, a) && a.main == Running && a.rejections == []
    requires c.Execute? && Step(job, a, c).rejections == []
    requires a.queue != [] && a.queue[0].waiter == Inserter && a.insert == AwaitMessages
    ensures Exact(job, base, n, Step(job, a, c))
  {
    var core := job.body.core;
    var a1 := Executed(a, c.fault, c.gap).0;
    assert a.queue[1..] == PendingUpdate(job, a);
    WriteMessages(base, job.chainId, core, DoneSoFar(a), a.at, Skip(a.server.serials, c.gap));
    ToEventsExact(job, base, n, a1);
  }

  lemma EventsExact(job: Job, base: Tables, n: Serials, a: Attempt)
    requires JobOk(job) && job.body.Store? && a.main == Running && !a.applied && !a.destroyed
    requires a.update == UpdateDone && a.insert == AwaitEvents && a.queue == []
    requires SerialsLeq(n, a.at) && SerialsLeq(a.at, a.server.serials)
    requires var core := job.body.core;
             && a.at.tx + |core.transactions| <= a.server.serials.tx
             && a.at.message + |core.messages| <= a.server.serials.message
             && a.at.event + |core.events| <= a.server.serials.event
             && a.server.session == Open(Written(base, job.chainId, core, ALL, a.at))
    ensures Exact(job, base, n, a.(insert := InsertDone))
  {}

  lemma ExactAfterEvents(job: Job, base: Tables, n: Serials, a: Attempt, c: Choice)
    requires JobOk(job) && Inv(job, base, n, a) && a.main == Running && a.rejections == []
    requires c.Execute? && Step(job, a, c).rejections == []
    requires a.queue != [] && a.queue[0].waiter == Inserter && a.insert == AwaitEvents
    ensures Exact(job, base, n, Step(job, a, c))
  {
    var (a1, reply) := Executed(a, c.fault, c.gap);
    assert PendingUpdate(job, a) == [] && a1.queue == [] && reply.Ok?;
    WriteEvents(base, job.chainId, job.body.core, DoneSoFar(a), a.at, Skip(a.server.serials, c.gap));
    EventsExact(job, base, n, a1);
  }

  lemma ExactContinue(job: Job, base: Tables, n: Serials, a: Attempt)
    requires JobOk(job) && Consistent(base, n) && Inv(job, base, n, a) && a.rejections == []
    ensures Exact(job, base, n, Step(job, a, Continue))
  {
    if a.main == Running && a.insert == InsertDone && a.update == UpdateDone {
      BothDone(job, base, n, a);
    }
  }

  lemma MainRejections(job: Job, a: Attempt, stmt: Stmt, reply: Reply)
    ensures a.rejections <= Resume(job, a, Main, stmt, reply).rejections
    ensures reply.Error? ==> Resume(job, a, Main, stmt, reply).rejections != []
  {}

  lemma ResumeRejections(job: Job, a: Attempt, w: Waiter, stmt: Stmt, reply: Reply)
    ensures a.rejections <= Resume(job, a, w, stmt, reply).rejections
    ensures w !in {Nobody, Reader} && reply.Error? ==> Resume(job, a, w, stmt, reply).rejections != []
  {
    if w == Main { MainRejections(job, a, stmt, reply); }
  }

  lemma RejectionsGrow(job: Job, a: Attempt, c: Choice)
    ensures a.rejections <= Step(job, a, c).rejections
    ensures c.Expire? && Step(job, a, c).rejections == [] ==>
              Step(job, a, c) == a || (c.k < |a.queue| && a.queue[c.k].waiter == Reader)
  {
    match c
    case Execute(fault, gap) =>
      if a.queue != [] {
        var (a1, reply) := Executed(a, fault, gap);
        ResumeRejections(job, a1, a.queue[0].waiter, a.queue[0].stmt, reply);
      }
    case Expire(k, withdraw) =>
      if k < |a.queue| && a.queue[k].waiter != Nobody {
        ResumeRejections(job, Expired(a, k, withdraw), a.queue[k].waiter, a.queue[k].stmt, Error);
      }
    case Continue =>
    case Ask(_) =>
  }

  lemma ExactExecute(job: Job, base: Tables, n: Serials, a: Attempt, c: Choice)
    requires JobOk(job) && Inv(job, base, n, a) && a.rejections == []
    requires c.Execute? && Step(job, a, c).rejections == []
    ensures Exact(job, base, n, Step(job, a, c))
  {
    if a.main == AwaitBegin {
      ExactBegin(job, base, n, a, c);
    } else if a.main == Running && a.queue != [] {
      if a.queue[0].waiter == Updater {
        ExactUpdate(job, base, n, a, c);
      } else if a.insert == AwaitBlock {
        ExactAfterBlock(job, base, n, a, c);
      } else if a.insert == AwaitTransactions {
        ExactAfterTransactions(job, base, n, a, c);
      } else if a.insert == AwaitMessages {
        ExactAfterMessages(job, base, n, a, c);
      } else {
        ExactAfterEvents(job, base, n, a, c);
      }
    }
  }

  /** Every step without a reader keeps the whole invariant. */
  lemma OwnStepKeeps(job: Job, base: Tables, n: Serials, a: Attempt, c: Choice)
    requires JobOk(job) && Consistent(base, n) && Inv(job, base, n, a) && !c.Ask?
    ensures Inv(job, base, n, Step(job, a, c))
  {
    StepSafe(job, base, n, a, c);
    RejectionsGrow(job, a, c);
    if Step(job, a, c).rejections == [] {
      match c
      case Continue => ExactContinue(job, base, n, a);
      case Expire(k, _) => assert k < |a.queue| ==> EntryOk(job, base, a, a.queue[k]);
      case Execute(_, _) => ExactExecute(job, base, n, a, c);
    }
  }

  /** Only the server changes the server. */
  lemma ResumeServer(job: Job, a: Attempt, w: Waiter, stmt: Stmt, reply: Reply)
    ensures Resume(job, a, w, stmt, reply).server == a.server
  {}

  lemma RunSnoc(job: Job, a: Attempt, choices: seq<Choice>, c: Choice)
    ensures Run(job, a, choices + [c]) == Step(job, Run(job, a, choices), c)
  {
    assert (choices + [c])[..|choices + [c]| - 1] == choices;
  }

  lemma {:induction false} RunConcat(job: Job, a: Attempt, first: seq<Choice>, second: seq<Choice>)
    ensures Run(job, a, first + second) == Run(job, Run(job, a, first), second)
  {
    if second == [] {
      assert first + second == first;
    } else {
      var c := second[|second| - 1];
      assert first + second == first + second[..|second| - 1] + [c];
      RunConcat(job, a, first, second[..|second| - 1]);
      RunSnoc(job, a, first + second[..|second| - 1], c);
    }
  }

  /** A run goes through each of its steps. */
  lemma RunSplit(job: Job, a: Attempt, choices: seq<Choice>, k: nat)
    requires k < |choices|
    ensures Run(job, a, choices) == Run(job, Step(job, Run(job, a, choices[..k]), choices[k]), choices[k + 1..])
  {
    assert choices == choices[..k] + [choices[k]] + choices[k + 1..];
    RunConcat(job, a, choices[..k] + [choices[k]], choices[k + 1..]);
    RunSnoc(job, a, choices[..k], choices[k]);
  }

  lemma StartInv(job: Job, base: Tables, n: Serials)
    requires JobOk(job) && Consistent(base, n)
    ensures Inv(job, base, n, Start(base, n))
  {}
}
