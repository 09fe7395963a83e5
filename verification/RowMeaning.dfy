/** Stored rows column by column, and what a reader gets back field by field (src/postgres/block.ts,
    src/postgres/query_block.ts). */
module RowMeaning {
  import opened Prelude
  import opened RawData
  import opened Database
  import opened BlockSync
  import opened BlockQuery
  import opened BlockStore

  // --------------------------------------------------------------------- rows

  /** Where the rows of a block begin in the tables. */
  datatype Rows = Rows(tx: nat, message: nat, event: nat)

  ghost predicate TxStored(t: Tables, core: BlockCore, o: Rows, i: nat)
    requires i < |core.transactions|
  {
    && o.tx + i < |t.txs|
    && var row, c := t.txs[o.tx + i], core.transactions[i];
       && row.tx.hash == c.hash && row.tx.code == c.code && row.tx.fee == c.fee && row.tx.memo == c.memo
       && row.tx.gasUsed == c.gasUsed && row.tx.gasWanted == c.gasWanted && row.tx.feePayer == c.feePayer
       && row.tx.txIndex == c.txIndex && row.time == core.time && row.blockHeight == core.height
  }

  /** The parent of a message row is the row of the transaction it came from. */
  ghost predicate MessageStored(t: Tables, core: BlockCore, o: Rows, i: nat)
    requires i < |core.messages|
  {
    && o.message + i < |t.messages|
    && var row, m := t.messages[o.message + i], core.messages[i];
       && row.typeUrl == m.typeUrl && row.value == m.value && row.transactionHash == m.transactionHash
       && row.index == m.index && row.blockHeight == core.height
       && exists k :: 0 <= k < |core.transactions| && core.transactions[k].txIndex == m.txIndex &&
                      core.transactions[k].hash == m.transactionHash &&
                      o.tx + k < |t.txs| && row.transactionId == t.txs[o.tx + k].id
  }

  ghost predicate EventStored(t: Tables, core: BlockCore, o: Rows, i: nat)
    requires i < |core.events|
  {
    && o.event + i < |t.events|
    && var row, e := t.events[o.event + i], core.events[i];
       && row.event.typ == e.typ && row.event.attributes == e.attributes
       && row.event.beginBlockEvent == e.beginBlockEvent && row.event.endBlockEvent == e.endBlockEvent
       && row.event.transactionHash == e.transactionHash && row.time == core.time && row.blockHeight == core.height
  }

  /** Every column of every row of the block, by position; no other transaction or event has its height. */
  ghost predicate RowsStored(t: Tables, core: BlockCore, o: Rows) {
    && core.height in t.blocks && t.blocks[core.height].hash == core.hash && t.blocks[core.height].time == core.time
    && (forall i: nat :: i < |core.transactions| ==> TxStored(t, core, o, i))
    && (forall i: nat :: i < |core.messages| ==> MessageStored(t, core, o, i))
    && (forall i: nat :: i < |core.events| ==> EventStored(t, core, o, i))
    && (forall i :: 0 <= i < |t.txs| && t.txs[i].blockHeight == core.height ==> o.tx <= i < o.tx + |core.transactions|)
    && (forall i :: 0 <= i < |t.events| && t.events[i].blockHeight == core.height ==>
          o.event <= i < o.event + |core.events|)
  }

  /** The tables grow by the rows of one block, and one checkpoint moves to it; nothing else changes. */
  ghost predicate GrowsBy(base: Tables, t: Tables, chainId: string, core: BlockCore) {
    && base.txs <= t.txs && |t.txs| == |base.txs| + |core.transactions|
    && base.messages <= t.messages && |t.messages| == |base.messages| + |core.messages|
    && base.events <= t.events && |t.events| == |base.events| + |core.events|
    && t.blocks.Keys == base.blocks.Keys + {core.height}
    && (forall h :: h in base.blocks && h != core.height ==> t.blocks[h] == base.blocks[h])
    && t.chains.Keys == base.chains.Keys
    && (chainId in base.chains ==> t.chains[chainId] == core.height)
    && (forall c :: c in base.chains && c != chainId ==> t.chains[c] == base.chains[c])
  }

  lemma NewTxStored(base: Tables, chainId: string, core: BlockCore, at: Serials, i: nat)
    requires i < |core.transactions|
    ensures var t := WithBlock(base, chainId, core, at);
            && TxStored(t, core, Rows(|base.txs|, |base.messages|, |base.events|), i)
            && t.txs[|base.txs| + i].id == at.tx + i
  {
    var rows := TxRows(core.transactions, at.tx, core.time, core.height);
    assert WithBlock(base, chainId, core, at).txs[|base.txs| + i] == rows[i];
  }

  lemma NewMessageStored(base: Tables, chainId: string, core: BlockCore, at: Serials, i: nat)
    requires Linked(core) && i < |core.messages|
    ensures MessageStored(WithBlock(base, chainId, core, at), core,
                          Rows(|base.txs|, |base.messages|, |base.events|), i)
  {
    var t := WithBlock(base, chainId, core, at);
    var rows := MessageRows(LinkedMessages(core, at.tx), at.message, core.height);
    assert t.messages[|base.messages| + i] == rows[i];
    ParentLinks(core, at.tx, i);
    var k :| 0 <= k < |core.transactions| && core.transactions[k].txIndex == core.messages[i].txIndex &&
             core.transactions[k].hash == core.messages[i].transactionHash &&
             LinkedMessages(core, at.tx)[i].transactionId == Some(at.tx + k);
    NewTxStored(base, chainId, core, at, k);
  }

  lemma NewEventStored(base: Tables, chainId: string, core: BlockCore, at: Serials, i: nat)
    requires i < |core.events|
    ensures EventStored(WithBlock(base, chainId, core, at), core,
                        Rows(|base.txs|, |base.messages|, |base.events|), i)
  {
    var rows := EventRows(core.events, at.event, core.time, core.height);
    assert WithBlock(base, chainId, core, at).events[|base.events| + i] == rows[i];
  }

  /** Storing a block adds exactly its rows, with every column as it should be. */
  lemma NewRowsStored(base: Tables, n: Serials, chainId: string, core: BlockCore, at: Serials, n': Serials)
    requires Fits(base, n, core, at, n')
    ensures var t := WithBlock(base, chainId, core, at);
            GrowsBy(base, t, chainId, core) && RowsStored(t, core, Rows(|base.txs|, |base.messages|, |base.events|))
  {
    forall i: nat | i < |core.transactions| { NewTxStored(base, chainId, core, at, i); }
    forall i: nat | i < |core.messages| { NewMessageStored(base, chainId, core, at, i); }
    forall i: nat | i < |core.events| { NewEventStored(base, chainId, core, at, i); }
    assert forall i :: 0 <= i < |base.txs| ==> base.txs[i] in base.txs;
    assert forall i :: 0 <= i < |base.events| ==> base.events[i] in base.events;
  }

  /** The rows of every other stored block stay where and as they are. */
  lemma OldRowsStored(base: Tables, n: Serials, chainId: string, core: BlockCore, at: Serials, n': Serials,
                      kept: BlockCore, o: Rows)
    requires Fits(base, n, core, at, n') && RowsStored(base, kept, o)
    ensures RowsStored(WithBlock(base, chainId, core, at), kept, o)
  {
    var t := WithBlock(base, chainId, core, at);
    NewRowsStored(base, n, chainId, core, at, n');
    forall i: nat | i < |kept.transactions| ensures TxStored(t, kept, o, i) {
      assert TxStored(base, kept, o, i);
    }
    forall i: nat | i < |kept.messages| ensures MessageStored(t, kept, o, i) {
      assert MessageStored(base, kept, o, i);
    }
    forall i: nat | i < |kept.events| ensures EventStored(t, kept, o, i) {
      assert EventStored(base, kept, o, i);
    }
    forall i | |base.txs| <= i < |t.txs| ensures t.txs[i].blockHeight == core.height {
      NewTxStored(base, chainId, core, at, i - |base.txs|);
    }
    forall i | |base.events| <= i < |t.events| ensures t.events[i].blockHeight == core.height {
      NewEventStored(base, chainId, core, at, i - |base.events|);
    }
  }

  // -------------------------------------------------------------------- views

  /** The events as a reader gets them: in their order, or one null entry. */
  ghost predicate ShowsEvents(core: BlockCore, events: seq<Option<EventView>>) {
    if core.events == [] then events == [None]
    else
      && |events| == |core.events|
      && forall i :: 0 <= i < |events| ==>
           && events[i].Some? && events[i].value.typ == core.events[i].typ
           && events[i].value.attributes == core.events[i].attributes
           && events[i].value.transactionHash == core.events[i].transactionHash
  }

  /** The messages of a transaction that look like `v`. */
  ghost function Alike(core: BlockCore, txIndex: nat, v: MessageView): set<nat> {
    set i: nat | i < |core.messages| && core.messages[i].txIndex == txIndex &&
                 core.messages[i].typeUrl == v.typeUrl && core.messages[i].value == v.value &&
                 core.messages[i].index == v.index
  }

  /** A transaction as a reader gets it, each of its messages as often as it occurs, or one null entry. */
  ghost predicate ShowsTx(core: BlockCore, t: TransactionCore, v: TxView) {
    && v.hash == t.hash && v.code == t.code && v.fee == t.fee && v.gasUsed == t.gasUsed
    && v.gasWanted == t.gasWanted && v.memo == t.memo
    && (forall m: MessageView :: v.messages[Some(m)] == |Alike(core, t.txIndex, m)|)
    && v.messages[None] == if exists m :: m in core.messages && m.txIndex == t.txIndex then 0 else 1
  }

  ghost predicate ShowsAll(core: BlockCore, txs: seq<TxView>) {
    |txs| == |core.transactions| && forall k :: 0 <= k < |txs| ==> ShowsTx(core, core.transactions[k], txs[k])
  }

  /** The block as a reader gets it. */
  ghost predicate Shows(core: BlockCore, v: BlockView) {
    && v.height == core.height && v.time == core.time && ShowsEvents(core, v.events)
    && exists txs :: ShowsAll(core, txs) && v.transactions == multiset(txs)
  }

  lemma {:induction false} JoinedCount<A>(matches: seq<A>, a: A)
    ensures multiset(LeftJoined(matches))[Some(a)] == multiset(matches)[a]
  {
    if matches == [] {
    } else {
      var front, last := matches[..|matches| - 1], matches[|matches| - 1];
      JoinedCount(front, a);
      assert matches == front + [last];
      if front == [] {
        assert LeftJoined(matches) == [Some(last)];
      } else {
        assert LeftJoined(matches) == LeftJoined(front) + [Some(last)];
      }
    }
  }

  lemma JoinedNone<A>(matches: seq<A>)
    ensures multiset(LeftJoined(matches))[None] == if matches == [] then 1 else 0
  {
    if matches != [] { assert None !in LeftJoined(matches); }
  }

  ghost function Images<A(!new), B>(f: A -> Option<B>, s: seq<A>, b: B): set<nat> {
    set i: nat | i < |s| && f(s[i]) == Some(b)
  }

  lemma ImagesSnoc<A(!new), B>(f: A -> Option<B>, front: seq<A>, a: A, b: B)
    ensures |Images(f, front + [a], b)| == |Images(f, front, b)| + if f(a) == Some(b) then 1 else 0
  {
    var s := front + [a];
    forall i: nat | i < |front| ensures s[i] == front[i] {}
    assert Images(f, s, b) == Images(f, front, b) + if f(a) == Some(b) then {|front|} else {};
  }

  /** A filter-map yields an image once for every position that has it. */
  lemma {:induction false} ImageCount<A(!new), B>(f: A -> Option<B>, s: seq<A>, b: B)
    ensures multiset(FilterMap(f, s))[b] == |Images(f, s, b)|
  {
    if s == [] {
    } else {
      var front, last := s[..|s| - 1], s[|s| - 1];
      assert s == front + [last];
      ImageCount(f, front, b);
      ImagesSnoc(f, front, last, b);
      FilterMapSnoc(f, front, last);
    }
  }

  lemma MessageCount(core: BlockCore, txIndex: nat, m: MessageView)
    ensures multiset(LeftJoined(FilterMap(MessageAt(txIndex), core.messages)))[Some(m)] == |Alike(core, txIndex, m)|
  {
    JoinedCount(FilterMap(MessageAt(txIndex), core.messages), m);
    ImageCount(MessageAt(txIndex), core.messages, m);
    assert Alike(core, txIndex, m) == Images(MessageAt(txIndex), core.messages, m);
  }

  lemma NullCount(core: BlockCore, txIndex: nat)
    ensures multiset(LeftJoined(FilterMap(MessageAt(txIndex), core.messages)))[None] ==
            if exists m :: m in core.messages && m.txIndex == txIndex then 0 else 1
  {
    var f := MessageAt(txIndex);
    JoinedNone(FilterMap(f, core.messages));
    if exists m :: m in core.messages && m.txIndex == txIndex {
      var i :| 0 <= i < |core.messages| && core.messages[i].txIndex == txIndex;
      FilterMapPositions(f, core.messages);
      assert i in Kept(f, core.messages);
    } else {
      FilterMapNone(f, core.messages);
    }
  }

  lemma SpecTxShows(core: BlockCore, k: nat)
    requires k < |core.transactions|
    ensures ShowsTx(core, core.transactions[k], SpecTxViews(core)[k])
  {
    var t := core.transactions[k];
    forall m: MessageView ensures SpecTxViews(core)[k].messages[Some(m)] == |Alike(core, t.txIndex, m)| {
      MessageCount(core, t.txIndex, m);
    }
    NullCount(core, t.txIndex);
  }

  /** What a block is expected to read back as, field by field. */
  lemma SpecViewShows(core: BlockCore)
    ensures Shows(core, SpecView(core))
  {
    forall k | 0 <= k < |core.transactions| ensures ShowsTx(core, core.transactions[k], SpecTxViews(core)[k]) {
      SpecTxShows(core, k);
    }
    assert ShowsAll(core, SpecTxViews(core));
  }

  /** Round trip: a height that read as null reads, after its block is stored, as that block. */
  lemma StoreThenRead(base: Tables, n: Serials, chainId: string, core: BlockCore, at: Serials, n': Serials)
    requires Fits(base, n, core, at, n')
    ensures var t := WithBlock(base, chainId, core, at);
            && GetCoreBlock(base, base, core.height) == None
            && GetCoreBlock(t, t, core.height).Some? && Shows(core, GetCoreBlock(t, t, core.height).value)
  {
    NewBlockHeld(base, n, chainId, core, at, n');
    ReadBack(WithBlock(base, chainId, core, at), core);
    SpecViewShows(core);
  }
}
