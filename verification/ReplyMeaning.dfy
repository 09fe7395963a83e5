/** What is stored for a height, in terms of the fields of the node's replies alone: which events, transactions and
    messages, with which fields and in which order, and when nothing is stored (src/sync/sync_blocks.ts,
    src/sync_handlers, src/util/proto.ts). */
module ReplyMeaning {
  import opened Prelude
  import opened RawData
  import opened FinalizeSplit
  import opened BlockSync
  import EventSync
  import TransactionSync

  // ------------------------------------------------------------------- events

  /** The place of an event in the replies: in the list of begin-block or end-block events or, in the newer
      format, in that of finalize events, or in the events of a transaction. */
  datatype Place = BeginAt(i: nat) | TxAt(t: nat, i: nat) | EndAt(i: nat)

  ghost predicate Earlier(p: Place, q: Place) {
    match (p, q)
    case (BeginAt(i), BeginAt(j)) => i < j
    case (TxAt(t, i), TxAt(u, j)) => t < u || (t == u && i < j)
    case (EndAt(i), EndAt(j)) => i < j
    case (BeginAt(_), _) => true
    case (TxAt(_, _), EndAt(_)) => true
    case _ => false
  }

  /** The event at a place. */
  ghost predicate Emits(results: BlockResults, responses: seq<TxResponse>, p: Place, e: Event) {
    var finalize := results.finalizeBlockEvents;
    match p
    case BeginAt(i) =>
      if finalize != [] then i < |finalize| && finalize[i] == e && FirstModeIs(e, "BeginBlock")
      else i < |results.beginBlockEvents| && results.beginBlockEvents[i] == e
    case EndAt(i) =>
      if finalize != [] then i < |finalize| && finalize[i] == e && FirstModeIs(e, "EndBlock")
      else i < |results.endBlockEvents| && results.endBlockEvents[i] == e
    case TxAt(t, i) => t < |responses| && i < |responses[t].events| && responses[t].events[i] == e
  }

  /** The attributes stored for a list of raw ones: the same when the first value is text, else each converted. */
  ghost predicate Decoded(reg: Registry, raw: Option<seq<Attribute>>, attributes: seq<Attribute>) {
    && raw.Some? && |attributes| == |raw.value|
    && if |raw.value| > 0 && raw.value[0].value.Text? then attributes == raw.value
       else forall i :: 0 <= i < |raw.value| ==>
         && reg.toJs(raw.value[i].key) == Some(attributes[i].key)
         && reg.toJs(raw.value[i].value) == Some(attributes[i].value)
  }

  /** `row` is the row of the event `e` at the place `p`. */
  ghost predicate RowOf(reg: Registry, responses: seq<TxResponse>, p: Place, e: Event, row: EventCore) {
    && e.typ in reg.listed && row.typ == e.typ && Decoded(reg, e.attributes, row.attributes)
    && row.beginBlockEvent == p.BeginAt? && row.endBlockEvent == p.EndAt?
    && row.transactionHash == if p.TxAt? && p.t < |responses| then Some(responses[p.t].txhash) else None
  }

  ghost predicate RowAt(reg: Registry, results: BlockResults, responses: seq<TxResponse>, p: Place, row: EventCore) {
    exists e :: Emits(results, responses, p, e) && RowOf(reg, responses, p, e, row)
  }

  /** `events` are the rows of all events that are listed and decodable, in the order of their places. */
  ghost predicate PlacedAt(reg: Registry, results: BlockResults, responses: seq<TxResponse>, events: seq<EventCore>,
                           places: seq<Place>) {
    && |places| == |events|
    && (forall k, l :: 0 <= k < l < |places| ==> Earlier(places[k], places[l]))
    && (forall k :: 0 <= k < |places| ==> RowAt(reg, results, responses, places[k], events[k]))
    && (forall p, row :: RowAt(reg, results, responses, p, row) ==> p in places)
  }

  ghost predicate EventsFrom(reg: Registry, results: BlockResults, responses: seq<TxResponse>, events: seq<EventCore>) {
    exists places :: PlacedAt(reg, results, responses, events, places)
  }

  /** `all` goes through the events at `places`. */
  ghost predicate Parallel(results: BlockResults, responses: seq<TxResponse>, places: seq<Place>,
                           all: seq<EventSync.Sourced>) {
    && |places| == |all|
    && (forall k, l :: 0 <= k < l < |places| ==> Earlier(places[k], places[l]))
    && (forall k :: 0 <= k < |places| ==> Source(results, responses, places[k], all[k]))
  }

  ghost predicate Source(results: BlockResults, responses: seq<TxResponse>, p: Place, s: EventSync.Sourced) {
    && Emits(results, responses, p, s.event)
    && s.origin == match p
                   case BeginAt(_) => EventSync.AtBegin
                   case TxAt(t, _) => EventSync.InTx(responses[t].txhash)
                   case EndAt(_) => EventSync.AtEnd
  }

  /** The positions of the finalize events of one side, or of all events of a list. */
  function Positions(finalize: seq<Event>, side: Side, events: seq<Event>): seq<nat> {
    if finalize != [] then Kept(OnSide(side), finalize) else seq(|events|, i => i)
  }

  lemma PositionsOk(finalize: seq<Event>, side: Side, plain: seq<Event>)
    ensures var events := if finalize != [] then FilterMap(OnSide(side), finalize) else plain;
            var at := Positions(finalize, side, plain);
            && |at| == |events| && StrictlyIncreasing(at)
            && forall k :: 0 <= k < |at| ==>
                 if finalize != [] then at[k] < |finalize| && finalize[at[k]] == events[k] && SideOf(events[k]) == side
                 else at[k] < |plain| && plain[at[k]] == events[k]
    ensures forall i: nat ::
              (if finalize != [] then i < |finalize| && SideOf(finalize[i]) == side else i < |plain|) ==>
                i in Positions(finalize, side, plain)
  {
    FilterMapPositions(OnSide(side), finalize);
    if finalize == [] {
      forall i: nat | i < |plain| ensures i in Positions(finalize, side, plain) {
        assert Positions(finalize, side, plain)[i] == i;
      }
    }
  }

  function BeginPlaces(results: BlockResults): seq<Place> {
    var at := Positions(results.finalizeBlockEvents, BeginSide, results.beginBlockEvents);
    seq(|at|, k requires 0 <= k < |at| => BeginAt(at[k]))
  }

  function EndPlaces(results: BlockResults): seq<Place> {
    var at := Positions(results.finalizeBlockEvents, EndSide, results.endBlockEvents);
    seq(|at|, k requires 0 <= k < |at| => EndAt(at[k]))
  }

  lemma BeginParallel(results: BlockResults, responses: seq<TxResponse>)
    ensures Parallel(results, responses, BeginPlaces(results),
                     EventSync.Tag(BlockEventsSpec(results).0, EventSync.AtBegin))
    ensures forall p: Place, e :: p.BeginAt? && Emits(results, responses, p, e) ==> p in BeginPlaces(results)
  {
    var at := Positions(results.finalizeBlockEvents, BeginSide, results.beginBlockEvents);
    var all := EventSync.Tag(BlockEventsSpec(results).0, EventSync.AtBegin);
    PositionsOk(results.finalizeBlockEvents, BeginSide, results.beginBlockEvents);
    forall k | 0 <= k < |at| ensures Source(results, responses, BeginPlaces(results)[k], all[k]) {
      SideMeaning(all[k].event);
    }
    forall p: Place, e | p.BeginAt? && Emits(results, responses, p, e) ensures p in BeginPlaces(results) {
      SideMeaning(e);
      assert p.i in at;
      var k :| 0 <= k < |at| && at[k] == p.i;
      assert BeginPlaces(results)[k] == p;
    }
  }

  lemma EndParallel(results: BlockResults, responses: seq<TxResponse>)
    ensures Parallel(results, responses, EndPlaces(results),
                     EventSync.Tag(BlockEventsSpec(results).1, EventSync.AtEnd))
    ensures forall p: Place, e :: p.EndAt? && Emits(results, responses, p, e) ==> p in EndPlaces(results)
  {
    var at := Positions(results.finalizeBlockEvents, EndSide, results.endBlockEvents);
    var all := EventSync.Tag(BlockEventsSpec(results).1, EventSync.AtEnd);
    PositionsOk(results.finalizeBlockEvents, EndSide, results.endBlockEvents);
    forall k | 0 <= k < |at| ensures Source(results, responses, EndPlaces(results)[k], all[k]) {
      SideMeaning(all[k].event);
    }
    forall p: Place, e | p.EndAt? && Emits(results, responses, p, e) ensures p in EndPlaces(results) {
      SideMeaning(e);
      assert p.i in at;
      var k :| 0 <= k < |at| && at[k] == p.i;
      assert EndPlaces(results)[k] == p;
    }
  }

  function TxPlaces(responses: seq<TxResponse>): seq<Place> {
    if responses == [] then [] else
    var t := |responses| - 1;
    TxPlaces(responses[..t]) + seq(|responses[t].events|, i requires 0 <= i < |responses[t].events| => TxAt(t, i))
  }

  ghost predicate TxParallel(results: BlockResults, responses: seq<TxResponse>, n: nat) {
    && n <= |responses|
    && Parallel(results, responses, TxPlaces(responses[..n]), EventSync.TxEvents(responses[..n]))
    && (forall k :: 0 <= k < |TxPlaces(responses[..n])| ==>
          TxPlaces(responses[..n])[k].TxAt? && TxPlaces(responses[..n])[k].t < n)
    && (forall t: nat, i: nat :: t < n && i < |responses[t].events| ==> TxAt(t, i) in TxPlaces(responses[..n]))
  }

  lemma TxParallelSnoc(results: BlockResults, responses: seq<TxResponse>, n: nat)
    requires n < |responses| && TxParallel(results, responses, n)
    ensures TxParallel(results, responses, n + 1)
  {
    var front, places := TxPlaces(responses[..n]), TxPlaces(responses[..n + 1]);
    var events := responses[n].events;
    var last := seq(|events|, i requires 0 <= i < |events| => TxAt(n, i));
    var tagged := EventSync.Tag(events, EventSync.InTx(responses[n].txhash));
    assert responses[..n + 1][..n] == responses[..n] && responses[..n + 1][n] == responses[n];
    assert places == front + last;
    assert EventSync.TxEvents(responses[..n + 1]) == EventSync.TxEvents(responses[..n]) + tagged;
    forall k | 0 <= k < |last| ensures Source(results, responses, last[k], tagged[k]) {}
    forall t: nat, i: nat | t < n + 1 && i < |responses[t].events| ensures TxAt(t, i) in places {
      if t == n { assert last[i] == TxAt(t, i); }
    }
    forall k, l | 0 <= k < l < |places| ensures Earlier(places[k], places[l]) {
      if l < |front| { assert Earlier(front[k], front[l]); } else { assert places[l] == last[l - |front|]; }
    }
  }

  lemma {:induction false} TxParallelAll(results: BlockResults, responses: seq<TxResponse>, n: nat)
    requires n <= |responses|
    ensures TxParallel(results, responses, n)
  {
    if n == 0 {
      assert responses[..0] == [];
    } else {
      TxParallelAll(results, responses, n - 1);
      TxParallelSnoc(results, responses, n - 1);
    }
  }

  function AllPlaces(results: BlockResults, responses: seq<TxResponse>): seq<Place> {
    BeginPlaces(results) + TxPlaces(responses) + EndPlaces(results)
  }

  lemma ParallelConcat(results: BlockResults, responses: seq<TxResponse>, p: seq<Place>, a: seq<EventSync.Sourced>,
                       q: seq<Place>, b: seq<EventSync.Sourced>)
    requires Parallel(results, responses, p, a) && Parallel(results, responses, q, b)
    requires forall k, l :: 0 <= k < |p| && 0 <= l < |q| ==> Earlier(p[k], q[l])
    ensures Parallel(results, responses, p + q, a + b)
  {
    forall k | 0 <= k < |p + q| ensures Source(results, responses, (p + q)[k], (a + b)[k]) {
      if k >= |p| { assert (p + q)[k] == q[k - |p|] && (a + b)[k] == b[k - |p|]; }
    }
  }

  lemma AllParallel(results: BlockResults, responses: seq<TxResponse>)
    ensures var (begin, end) := BlockEventsSpec(results);
            Parallel(results, responses, AllPlaces(results, responses), EventSync.Emitted(begin, responses, end))
  {
    var (begin, end) := BlockEventsSpec(results);
    var b, t, e := BeginPlaces(results), TxPlaces(responses), EndPlaces(results);
    var first, last := EventSync.Tag(begin, EventSync.AtBegin), EventSync.Tag(end, EventSync.AtEnd);
    assert responses[..|responses|] == responses;
    BeginParallel(results, responses);
    TxParallelAll(results, responses, |responses|);
    EndParallel(results, responses);
    ParallelConcat(results, responses, b, first, t, EventSync.TxEvents(responses));
    ParallelConcat(results, responses, b + t, first + EventSync.TxEvents(responses), e, last);
  }

  lemma AllComplete(results: BlockResults, responses: seq<TxResponse>, p: Place, e: Event)
    requires Emits(results, responses, p, e)
    ensures p in AllPlaces(results, responses)
  {
    assert responses[..|responses|] == responses;
    BeginParallel(results, responses);
    TxParallelAll(results, responses, |responses|);
    EndParallel(results, responses);
  }

  lemma RowMeaning(reg: Registry, results: BlockResults, responses: seq<TxResponse>, p: Place, s: EventSync.Sourced,
                   row: EventCore)
    requires Source(results, responses, p, s)
    ensures EventSync.ToCore(reg)(s) == Some(row) <==> RowOf(reg, responses, p, s.event, row)
  {
    EventSync.DecodedAttributes(reg, s.event);
    if RowOf(reg, responses, p, s.event, row) {
      var doc := EventSync.DecodeEvent(reg, s.event).value;
      assert doc.attributes == row.attributes;
    }
  }

  /** The places of the events that become rows. */
  function RowPlaces(reg: Registry, results: BlockResults, responses: seq<TxResponse>): seq<Place> {
    var (begin, end) := BlockEventsSpec(results);
    var kept := Kept(EventSync.ToCore(reg), EventSync.Emitted(begin, responses, end));
    var at := AllPlaces(results, responses);
    seq(|kept|, k requires 0 <= k < |kept| => if kept[k] < |at| then at[kept[k]] else BeginAt(0))
  }

  lemma RowsInPlace(reg: Registry, results: BlockResults, responses: seq<TxResponse>, k: nat)
    requires k < |RowPlaces(reg, results, responses)|
    ensures var (begin, end) := BlockEventsSpec(results);
            var rows := EventSync.SyncEventsSpec(reg, begin, responses, end);
            k < |rows| && RowAt(reg, results, responses, RowPlaces(reg, results, responses)[k], rows[k])
  {
    var (begin, end) := BlockEventsSpec(results);
    var all, at := EventSync.Emitted(begin, responses, end), AllPlaces(results, responses);
    var kept := Kept(EventSync.ToCore(reg), all);
    var rows := EventSync.SyncEventsSpec(reg, begin, responses, end);
    AllParallel(results, responses);
    KeptImages(EventSync.ToCore(reg), all);
    var i := kept[k];
    assert Source(results, responses, at[i], all[i]);
    RowMeaning(reg, results, responses, at[i], all[i], rows[k]);
  }

  lemma RowPlacesOrdered(reg: Registry, results: BlockResults, responses: seq<TxResponse>, k: nat, l: nat)
    requires k < l < |RowPlaces(reg, results, responses)|
    ensures Earlier(RowPlaces(reg, results, responses)[k], RowPlaces(reg, results, responses)[l])
  {
    var (begin, end) := BlockEventsSpec(results);
    AllParallel(results, responses);
    KeptIncreasing(EventSync.ToCore(reg), EventSync.Emitted(begin, responses, end));
  }

  lemma RowPlacesComplete(reg: Registry, results: BlockResults, responses: seq<TxResponse>, p: Place, row: EventCore)
    requires RowAt(reg, results, responses, p, row)
    ensures p in RowPlaces(reg, results, responses)
  {
    var (begin, end) := BlockEventsSpec(results);
    var all, at := EventSync.Emitted(begin, responses, end), AllPlaces(results, responses);
    var kept := Kept(EventSync.ToCore(reg), all);
    AllParallel(results, responses);
    var e :| Emits(results, responses, p, e) && RowOf(reg, responses, p, e, row);
    AllComplete(results, responses, p, e);
    var i :| 0 <= i < |at| && at[i] == p;
    assert Source(results, responses, at[i], all[i]);
    RowMeaning(reg, results, responses, p, all[i], row);
    KeptExactly(EventSync.ToCore(reg), all, i);
    var k :| 0 <= k < |kept| && kept[k] == i;
    assert RowPlaces(reg, results, responses)[k] == p;
  }

  /** The stored events, by their places in the replies. */
  lemma EventsMeaning(reg: Registry, results: BlockResults, responses: seq<TxResponse>)
    ensures var (begin, end) := BlockEventsSpec(results);
            EventsFrom(reg, results, responses, EventSync.SyncEventsSpec(reg, begin, responses, end))
  {
    var (begin, end) := BlockEventsSpec(results);
    var rows := EventSync.SyncEventsSpec(reg, begin, responses, end);
    var places := RowPlaces(reg, results, responses);
    KeptImages(EventSync.ToCore(reg), EventSync.Emitted(begin, responses, end));
    forall k | 0 <= k < |places| ensures RowAt(reg, results, responses, places[k], rows[k]) {
      RowsInPlace(reg, results, responses, k);
    }
    forall k, l | 0 <= k < l < |places| ensures Earlier(places[k], places[l]) {
      RowPlacesOrdered(reg, results, responses, k, l);
    }
    forall p, row | RowAt(reg, results, responses, p, row) ensures p in places {
      RowPlacesComplete(reg, results, responses, p, row);
    }
    assert PlacedAt(reg, results, responses, rows, places);
  }

  // -------------------------------------------------------------- whole blocks

  ghost predicate TransactionsFrom(reg: Registry, responses: seq<TxResponse>, txs: seq<TransactionCore>) {
    && (forall i, j :: 0 <= i < j < |txs| ==> txs[i].txIndex < txs[j].txIndex)
    && (forall t :: t in txs <==> TransactionSync.TransactionFrom(reg, responses, t))
  }

  ghost predicate MessagesFrom(reg: Registry, responses: seq<TxResponse>, messages: seq<MessageCore>) {
    && (forall i, j :: 0 <= i < j < |messages| ==> TransactionSync.Before(messages[i], messages[j]))
    && (forall m :: m in messages <==> TransactionSync.MessageFrom(reg, responses, m))
  }

  ghost predicate IsLowWord(w: int, h: int) {
    -0x8000_0000 <= w < 0x8000_0000 && (h - w) % 0x1_0000_0000 == 0
  }

  /** All three replies are there, and the one for transactions is not behind that for the block. */
  ghost predicate Complete(f: Fetch) {
    f.block.Some? && f.txs.Some? && f.results.Some? && (f.block.value.txCount == 0 || f.txs.value.txCount > 0)
  }

  /** `core` is the block of the replies. */
  ghost predicate FromReplies(reg: Registry, f: Fetch, core: BlockCore) {
    && Complete(f) && f.block.value.header.Some?
    && var header, responses := f.block.value.header.value, f.txs.value.txResponses;
       && IsLowWord(core.height, header.height) && header.time == Some(core.time)
       && f.block.value.blockId == Some(Some(core.hash))
       && TransactionsFrom(reg, responses, core.transactions) && MessagesFrom(reg, responses, core.messages)
       && EventsFrom(reg, f.results.value, responses, core.events)
  }

  /** Handling a response does not throw. */
  ghost predicate Handles(reg: Registry, tr: TxResponse) {
    var d := reg.decodeTx(tr.tx);
    d.Some? ==> d.value.body.Some? && d.value.authInfo.Some? && !TransactionSync.ThrowsFirst(tr.events)
  }

  /** What an iteration does with its replies, branch by branch, and exactly when there is a block to store. */
  lemma PlanMeaning(reg: Registry, chainId: string, f: Fetch)
    ensures var plan := PlanSpec(reg, chainId, f);
            && (plan.Retry? <==> f.block.None? || f.txs.None? || f.results.None?)
            && (plan.AbciBehind? <==> f.block.Some? && f.txs.Some? && f.results.Some? &&
                                      f.block.value.txCount > 0 && f.txs.value.txCount == 0)
            && (plan.Malformed? <==> Complete(f) && f.block.value.header.None?)
            && (plan.Proceed? <==> Complete(f) && f.block.value.header.Some?)
    ensures PlanSpec(reg, chainId, f).Proceed? ==>
              var job, block := PlanSpec(reg, chainId, f).job, f.block.value;
              && job.chainId == chainId && IsLowWord(job.height, block.header.value.height)
              && (job.body.FnThrows? <==> block.blockId.None? || block.header.value.time.None?)
              && (job.body.Store? <==>
                    && block.header.value.time.Some? && block.blockId.Some? && block.blockId.value.Some?
                    && forall tr :: tr in f.txs.value.txResponses ==> Handles(reg, tr))
  {
    if PlanSpec(reg, chainId, f).Proceed? {
      var responses := f.txs.value.txResponses;
      TransactionSync.ThrowsExactly(reg, responses);
      forall tr | tr in responses ensures TransactionSync.Breaks(reg, tr) <==> !Handles(reg, tr) {
        TransactionSync.PayerMeaning(tr.events, Undefined);
      }
      LowWordExact(f.block.value.header.value.height);
      LowWordIs(f.block.value.header.value.height);
    }
  }

  lemma LowWordIs(h: int)
    ensures IsLowWord(LowWord(h), h)
  {
    LowWordExact(h);
    var k: int :| h - LowWord(h) == k * TWO32;
    assert k * TWO32 % TWO32 == 0;
  }

  /** The block to store is the block of the replies, field by field and place by place. */
  lemma StoreMeaning(reg: Registry, chainId: string, f: Fetch)
    requires PlanSpec(reg, chainId, f).Proceed? && PlanSpec(reg, chainId, f).job.body.Store?
    ensures FromReplies(reg, f, PlanSpec(reg, chainId, f).job.body.core)
  {
    LowWordIs(f.block.value.header.value.height);
    TransactionSync.TransactionShape(reg, f.txs.value.txResponses);
    EventsMeaning(reg, f.results.value, f.txs.value.txResponses);
  }
}
