/** What storing a block writes, and that reading it back gives the block again
    (src/postgres/block.ts against src/postgres/query_block.ts). */
module BlockStore {
  import opened Prelude
  import opened RawData
  import opened Database
  import opened BlockQuery
  import opened BlockSync

  // ------------------------------------------------------------- parent links

  /** `new Map(pairs)`: a later pair overwrites an earlier one with the same key. */
  function IdMap(pairs: seq<(nat, nat)>): map<nat, nat> {
    if pairs == [] then map[] else
    var last := pairs[|pairs| - 1];
    IdMap(pairs[..|pairs| - 1])[last.0 := last.1]
  }

  /** A key is mapped to the value of the last pair with that key. */
  lemma {:induction false} IdMapLast(pairs: seq<(nat, nat)>, k: nat)
    ensures k in IdMap(pairs) <==> exists i :: 0 <= i < |pairs| && pairs[i].0 == k
    ensures forall i :: 0 <= i < |pairs| && pairs[i].0 == k && (forall j :: i < j < |pairs| ==> pairs[j].0 != k) ==>
              IdMap(pairs)[k] == pairs[i].1
  {
    if pairs == [] {
    } else {
      var front := pairs[..|pairs| - 1];
      IdMapLast(front, k);
      assert forall i :: 0 <= i < |front| ==> front[i] == pairs[i];
      assert pairs[|front|] == pairs[|pairs| - 1];
    }
  }

  function Lookup(ids: map<nat, nat>, txIndex: nat): Option<nat> {
    if txIndex in ids then Some(ids[txIndex]) else None
  }

  function Link(messages: seq<MessageCore>, ids: map<nat, nat>): seq<LinkedMessage> {
    seq(|messages|, i requires 0 <= i < |messages| =>
      var m := messages[i];
      LinkedMessage(m.typeUrl, m.value, m.transactionHash, Lookup(ids, m.txIndex), m.index))
  }

  function TxIdPairs(txs: seq<TransactionCore>, from: nat): seq<(nat, nat)> {
    seq(|txs|, i requires 0 <= i < |txs| => (txs[i].txIndex, from + i))
  }

  lemma {:induction false} IdMapExact(txs: seq<TransactionCore>, from: nat)
    requires forall i, j :: 0 <= i < j < |txs| ==> txs[i].txIndex < txs[j].txIndex
    ensures forall i :: 0 <= i < |txs| ==> Lookup(IdMap(TxIdPairs(txs, from)), txs[i].txIndex) == Some(from + i)
    ensures forall k :: k in IdMap(TxIdPairs(txs, from)) ==> exists i :: 0 <= i < |txs| && txs[i].txIndex == k
    ensures forall k :: k in IdMap(TxIdPairs(txs, from)) ==> from <= IdMap(TxIdPairs(txs, from))[k]
  {
    if txs == [] {
    } else {
      var front := txs[..|txs| - 1];
      IdMapExact(front, from);
      assert TxIdPairs(txs, from)[..|txs| - 1] == TxIdPairs(front, from);
    }
  }

  /** The statement that links messages to the rows their transactions got. */
  function LinkedMessages(core: BlockCore, from: nat): seq<LinkedMessage> {
    Link(core.messages, IdMap(TxIdPairs(core.transactions, from)))
  }

  /** Every message's id lookup succeeds and yields the row of the very transaction the message was
      decoded from, whatever hashes the transactions share. */
  lemma ParentLinks(core: BlockCore, from: nat, i: nat)
    requires Linked(core) && i < |core.messages|
    ensures exists k :: 0 <= k < |core.transactions| &&
                        core.transactions[k].txIndex == core.messages[i].txIndex &&
                        core.transactions[k].hash == core.messages[i].transactionHash &&
                        LinkedMessages(core, from)[i].transactionId == Some(from + k) &&
                        TxRows(core.transactions, from, core.time, core.height)[k].id == from + k
  {
    IdMapExact(core.transactions, from);
    assert core.messages[i] in core.messages;
  }

  // ----------------------------------------------------------- what is written

  /** Which of an attempt's five writes have been made. */
  datatype Progress = Progress(block: bool, txs: bool, messages: bool, events: bool, chain: bool)

  const ALL := Progress(true, true, true, true, true)

  /** The tables of `base` with the given writes of the block added; `at` holds the first ids drawn. */
  function Written(base: Tables, chainId: string, core: BlockCore, p: Progress, at: Serials): Tables {
    Tables(
      if p.chain && chainId in base.chains then base.chains[chainId := core.height] else base.chains,
      if p.block then base.blocks[core.height := BlockRow(core.hash, core.time)] else base.blocks,
      base.txs + (if p.txs then TxRows(core.transactions, at.tx, core.time, core.height) else []),
      base.messages + (if p.messages then MessageRows(LinkedMessages(core, at.tx), at.message, core.height) else []),
      base.events + (if p.events then EventRows(core.events, at.event, core.time, core.height) else []))
  }

  /** The tables with the whole block added and the checkpoint moved to it. */
  function WithBlock(base: Tables, chainId: string, core: BlockCore, at: Serials): Tables {
    Written(base, chainId, core, ALL, at)
  }

  ghost predicate Fits(base: Tables, n: Serials, core: BlockCore, at: Serials, n': Serials) {
    && Consistent(base, n) && Linked(core)
    && core.height !in base.blocks
    && SerialsLeq(n, at)
    && at.tx + |core.transactions| <= n'.tx
    && at.message + |core.messages| <= n'.message
    && at.event + |core.events| <= n'.event
  }

  /** Storing a block keeps every foreign key and id order of the tables. */
  lemma WithBlockConsistent(base: Tables, n: Serials, chainId: string, core: BlockCore, at: Serials, n': Serials)
    requires Fits(base, n, core, at, n')
    ensures Consistent(WithBlock(base, chainId, core, at), n')
  {
    TxsConsistent(base, n, core, at, n');
    MessagesConsistent(base, n, core, at);
    EventsConsistent(base, n, core, at, n');
  }

  lemma TxsConsistent(base: Tables, n: Serials, core: BlockCore, at: Serials, n': Serials)
    requires Fits(base, n, core, at, n')
    ensures var all := base.txs + TxRows(core.transactions, at.tx, core.time, core.height);
            && (forall r :: r in all ==> (r.blockHeight in base.blocks || r.blockHeight == core.height) && r.id < n'.tx)
            && (forall i, j :: 0 <= i < j < |all| ==> all[i].id < all[j].id)
  {
    assert forall i :: 0 <= i < |base.txs| ==> base.txs[i] in base.txs;
  }

  lemma OwnParent(core: BlockCore, at: Serials, i: nat)
    requires Linked(core) && i < |core.messages|
    ensures MessageRows(LinkedMessages(core, at.tx), at.message, core.height)[i].transactionId
            in TxIds(TxRows(core.transactions, at.tx, core.time, core.height))
  {
    ParentLinks(core, at.tx, i);
    var rows := TxRows(core.transactions, at.tx, core.time, core.height);
    var k :| 0 <= k < |core.transactions| && core.transactions[k].txIndex == core.messages[i].txIndex &&
             LinkedMessages(core, at.tx)[i].transactionId == Some(at.tx + k);
    assert rows[k] in rows;
  }

  lemma TxIdsConcat(a: seq<TxRow>, b: seq<TxRow>)
    ensures TxIds(a + b) == TxIds(a) + TxIds(b)
  {
    forall id | id in TxIds(a) + TxIds(b) ensures id in TxIds(a + b) {
      var r :| (r in a || r in b) && r.id == id;
      assert r in a + b;
    }
  }

  lemma MessagesConsistent(base: Tables, n: Serials, core: BlockCore, at: Serials)
    requires Consistent(base, n) && Linked(core)
    ensures forall m :: m in base.messages + MessageRows(LinkedMessages(core, at.tx), at.message, core.height) ==>
              m.transactionId in TxIds(base.txs + TxRows(core.transactions, at.tx, core.time, core.height))
  {
    TxIdsConcat(base.txs, TxRows(core.transactions, at.tx, core.time, core.height));
    forall i | 0 <= i < |core.messages|
      ensures MessageRows(LinkedMessages(core, at.tx), at.message, core.height)[i].transactionId
              in TxIds(TxRows(core.transactions, at.tx, core.time, core.height))
    {
      OwnParent(core, at, i);
    }
  }

  lemma EventsConsistent(base: Tables, n: Serials, core: BlockCore, at: Serials, n': Serials)
    requires Fits(base, n, core, at, n')
    ensures var all := base.events + EventRows(core.events, at.event, core.time, core.height);
            && (forall r :: r in all ==>
                  (r.blockHeight in base.blocks || r.blockHeight == core.height) && r.id < n'.event)
            && (forall i, j :: 0 <= i < j < |all| ==> all[i].id < all[j].id)
  {
    assert forall i :: 0 <= i < |base.events| ==> base.events[i] in base.events;
  }

  // ------------------------------------------------------------- round trip

  function MessageAt(txIndex: nat): MessageCore -> Option<MessageView> {
    (m: MessageCore) => if m.txIndex == txIndex then Some(MessageView(m.typeUrl, m.value, m.index)) else None
  }

  /** The block as a reader should see it: each transaction with its own messages. */
  function SpecView(core: BlockCore): BlockView {
    BlockView(core.height, core.time, multiset(SpecTxViews(core)), LeftJoined(SpecEventViews(core)))
  }

  function SpecEventViews(core: BlockCore): seq<EventView> {
    seq(|core.events|, i requires 0 <= i < |core.events| =>
      var e := core.events[i];
      EventView(e.typ, e.attributes, e.transactionHash))
  }

  function SpecTxView(t: TransactionCore, messages: seq<MessageCore>): TxView {
    TxView(t.hash, t.code, t.fee, t.gasUsed, t.gasWanted, t.memo,
           multiset(LeftJoined(FilterMap(MessageAt(t.txIndex), messages))))
  }

  function SpecTxViews(core: BlockCore): seq<TxView> {
    seq(|core.transactions|, i requires 0 <= i < |core.transactions| => SpecTxView(core.transactions[i], core.messages))
  }

  /** The rows of the tables at one height are exactly those of `core`, every message under its parent. */
  ghost predicate Holds(t: Tables, core: BlockCore) {
    && core.height in t.blocks && t.blocks[core.height] == BlockRow(core.hash, core.time)
    && FilterMap(EventAt(core.height), t.events) == SpecEventViews(core)
    && TxViews(t, FilterMap(TxAt(core.height), t.txs)) == SpecTxViews(core)
  }

  lemma ReadBack(t: Tables, core: BlockCore)
    requires Holds(t, core)
    ensures GetCoreBlock(t, t, core.height) == Some(SpecView(core))
  {}

  lemma OwnTxRows(base: Tables, n: Serials, core: BlockCore, from: nat)
    requires Consistent(base, n) && core.height !in base.blocks
    ensures FilterMap(TxAt(core.height), base.txs + TxRows(core.transactions, from, core.time, core.height)) ==
            TxRows(core.transactions, from, core.time, core.height)
  {
    var rows := TxRows(core.transactions, from, core.time, core.height);
    FilterMapConcat(TxAt(core.height), base.txs, rows);
    forall i | 0 <= i < |base.txs| ensures TxAt(core.height)(base.txs[i]).None? {
      assert base.txs[i] in base.txs;
    }
    FilterMapNone(TxAt(core.height), base.txs);
    FilterMapAll(TxAt(core.height), rows);
  }

  lemma {:induction false} FilterMapAll<A>(f: A -> Option<A>, s: seq<A>)
    requires forall i :: 0 <= i < |s| ==> f(s[i]) == Some(s[i])
    ensures FilterMap(f, s) == s
  {
    if s == [] {
    } else {
      FilterMapAll(f, s[..|s| - 1]);
    }
  }

  lemma OwnEventRows(base: Tables, n: Serials, core: BlockCore, from: nat)
    requires Consistent(base, n) && core.height !in base.blocks
    ensures FilterMap(EventAt(core.height), base.events + EventRows(core.events, from, core.time, core.height)) ==
            SpecEventViews(core)
  {
    var rows := EventRows(core.events, from, core.time, core.height);
    var views := SpecEventViews(core);
    FilterMapConcat(EventAt(core.height), base.events, rows);
    forall i | 0 <= i < |base.events| ensures EventAt(core.height)(base.events[i]).None? {
      assert base.events[i] in base.events;
    }
    FilterMapNone(EventAt(core.height), base.events);
    FilterMapPointwise(EventAt(core.height), rows, (v: EventView) => Some(v), views);
    FilterMapAll((v: EventView) => Some(v), views);
  }

  lemma OwnMessage(core: BlockCore, at: Serials, k: nat, i: nat)
    requires Linked(core) && k < |core.transactions| && i < |core.messages|
    ensures MessageOf(at.tx + k)(MessageRows(LinkedMessages(core, at.tx), at.message, core.height)[i]) ==
            MessageAt(core.transactions[k].txIndex)(core.messages[i])
  {
    ParentLinks(core, at.tx, i);
  }

  /** The messages found under the k-th new transaction row are those decoded from that transaction. */
  lemma OwnMessages(base: Tables, n: Serials, core: BlockCore, at: Serials, k: nat, all: seq<MessageRow>, id: nat)
    requires Consistent(base, n) && Linked(core) && SerialsLeq(n, at) && k < |core.transactions|
    requires all == base.messages + MessageRows(LinkedMessages(core, at.tx), at.message, core.height) && id == at.tx + k
    ensures FilterMap(MessageOf(id), all) == FilterMap(MessageAt(core.transactions[k].txIndex), core.messages)
  {
    var rows := MessageRows(LinkedMessages(core, at.tx), at.message, core.height);
    FilterMapConcat(MessageOf(id), base.messages, rows);
    forall i | 0 <= i < |base.messages| ensures MessageOf(id)(base.messages[i]).None? {
      assert base.messages[i] in base.messages;
    }
    FilterMapNone(MessageOf(id), base.messages);
    forall i | 0 <= i < |rows|
      ensures MessageOf(id)(rows[i]) == MessageAt(core.transactions[k].txIndex)(core.messages[i])
    {
      OwnMessage(core, at, k, i);
    }
    FilterMapPointwise(MessageOf(id), rows, MessageAt(core.transactions[k].txIndex), core.messages);
  }

  lemma NewTxView(base: Tables, n: Serials, t: Tables, core: BlockCore, at: Serials, k: nat, row: TxRow)
    requires Consistent(base, n) && Linked(core) && SerialsLeq(n, at) && k < |core.transactions|
    requires t.messages == base.messages + MessageRows(LinkedMessages(core, at.tx), at.message, core.height)
    requires row.id == at.tx + k && row.tx == core.transactions[k]
    ensures ViewTx(t, row) == SpecTxView(core.transactions[k], core.messages)
  {
    OwnMessages(base, n, core, at, k, t.messages, row.id);
  }

  lemma NewTxViews(base: Tables, n: Serials, chainId: string, core: BlockCore, at: Serials, n': Serials)
    requires Fits(base, n, core, at, n')
    ensures TxViews(WithBlock(base, chainId, core, at), TxRows(core.transactions, at.tx, core.time, core.height)) ==
            SpecTxViews(core)
  {
    var t := WithBlock(base, chainId, core, at);
    var rows := TxRows(core.transactions, at.tx, core.time, core.height);
    forall k | 0 <= k < |rows|
      ensures ViewTx(t, rows[k]) == SpecTxView(core.transactions[k], core.messages)
    {
      NewTxView(base, n, t, core, at, k, rows[k]);
    }
  }

  /** A freshly stored block is held by the new tables. */
  lemma NewBlockHeld(base: Tables, n: Serials, chainId: string, core: BlockCore, at: Serials, n': Serials)
    requires Fits(base, n, core, at, n')
    ensures Holds(WithBlock(base, chainId, core, at), core)
  {
    OwnTxRows(base, n, core, at.tx);
    OwnEventRows(base, n, core, at.event);
    NewTxViews(base, n, chainId, core, at, n');
  }

  lemma OldRows(base: Tables, core: BlockCore, at: Serials, h: int)
    requires h != core.height
    ensures FilterMap(TxAt(h), base.txs + TxRows(core.transactions, at.tx, core.time, core.height)) ==
        FilterMap(TxAt(h), base.txs)
    ensures FilterMap(EventAt(h), base.events + EventRows(core.events, at.event, core.time, core.height)) ==
            FilterMap(EventAt(h), base.events)
  {
    var newTxs := TxRows(core.transactions, at.tx, core.time, core.height);
    var newEvents := EventRows(core.events, at.event, core.time, core.height);
    FilterMapConcat(TxAt(h), base.txs, newTxs);
    FilterMapNone(TxAt(h), newTxs);
    FilterMapConcat(EventAt(h), base.events, newEvents);
    FilterMapNone(EventAt(h), newEvents);
  }

  lemma OldTxViews(base: Tables, n: Serials, chainId: string, core: BlockCore, at: Serials, n': Serials, h: int)
    requires Fits(base, n, core, at, n')
    ensures TxViews(WithBlock(base, chainId, core, at), FilterMap(TxAt(h), base.txs)) ==
            TxViews(base, FilterMap(TxAt(h), base.txs))
  {
    var rows := FilterMap(TxAt(h), base.txs);
    forall k | 0 <= k < |rows|
      ensures ViewTx(WithBlock(base, chainId, core, at), rows[k]) == ViewTx(base, rows[k])
    {
      FilterMapSource(TxAt(h), base.txs, k);
      assert rows[k] in base.txs;
      OldMessages(base, n, core, at, rows[k].id);
    }
  }

  /** Storing a block leaves every other stored block as it was. */
  lemma OldBlockHeld(base: Tables, n: Serials, chainId: string, core: BlockCore, at: Serials, n': Serials,
      kept: BlockCore)
    requires Fits(base, n, core, at, n')
    requires Holds(base, kept)
    ensures Holds(WithBlock(base, chainId, core, at), kept)
  {
    OldRows(base, core, at, kept.height);
    OldTxViews(base, n, chainId, core, at, n', kept.height);
  }

  lemma OldMessages(base: Tables, n: Serials, core: BlockCore, at: Serials, id: nat)
    requires Consistent(base, n) && Linked(core) && SerialsLeq(n, at) && id < n.tx
    ensures FilterMap(MessageOf(id), base.messages + MessageRows(LinkedMessages(core, at.tx), at.message,
        core.height)) ==
            FilterMap(MessageOf(id), base.messages)
  {
    var rows := MessageRows(LinkedMessages(core, at.tx), at.message, core.height);
    FilterMapConcat(MessageOf(id), base.messages, rows);
    forall i | 0 <= i < |rows| ensures MessageOf(id)(rows[i]).None? {
      ParentLinks(core, at.tx, i);
    }
    FilterMapNone(MessageOf(id), rows);
  }

  lemma LeftJoinedNone<A>(matches: seq<A>)
    ensures None in multiset(LeftJoined(matches)) <==> matches == []
    ensures matches == [] ==> multiset(LeftJoined(matches)) == multiset{None}
  {}

  /** The all-null placeholder appears exactly for a transaction without messages (or a block without
      events), and then it is the only entry. */
  lemma PlaceholderOnly(core: BlockCore)
    requires Linked(core)
    ensures forall k :: 0 <= k < |core.transactions| ==>
              var v := SpecTxViews(core)[k].messages;
              && (None in v <==> forall i :: 0 <= i < |core.messages| ==>
                  core.messages[i].txIndex != core.transactions[k].txIndex)
              && (None in v ==> v == multiset{None})
    ensures None in SpecView(core).events <==> core.events == []
    ensures None in SpecView(core).events ==> SpecView(core).events == [None]
  {
    forall k | 0 <= k < |core.transactions|
      ensures var v := SpecTxViews(core)[k].messages;
              && (None in v <==> forall i :: 0 <= i < |core.messages| ==>
                  core.messages[i].txIndex != core.transactions[k].txIndex)
              && (None in v ==> v == multiset{None})
    {
      var f := MessageAt(core.transactions[k].txIndex);
      FilterMapPositions(f, core.messages);
      if forall i :: 0 <= i < |core.messages| ==> core.messages[i].txIndex != core.transactions[k].txIndex {
        FilterMapNone(f, core.messages);
      } else {
        var i :| 0 <= i < |core.messages| && core.messages[i].txIndex == core.transactions[k].txIndex;
        assert i in Kept(f, core.messages);
      }
      LeftJoinedNone(FilterMap(f, core.messages));
    }
  }
}
