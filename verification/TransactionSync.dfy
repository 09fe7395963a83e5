/** Turning transaction responses into transaction and message rows
    (src/sync_handlers/transactions_sync_handler.ts). */
module TransactionSync {
  import opened Prelude
  import opened RawData

  const FEE_PAYER: Value := Text("fee_payer")
  const ACC_SEQ: Value := Text("acc_seq")

  // ---------------------------------------------------------------- fee payer

  /** One thing the fee-payer scan meets: an attribute, or an event without an attribute list,
      over which the `for … of` throws. */
  datatype ScanItem = Attr(attribute: Attribute) | NotIterable

  function ItemsOf(attributes: seq<Attribute>): seq<ScanItem> {
    seq(|attributes|, i requires 0 <= i < |attributes| => Attr(attributes[i]))
  }

  /** What one event adds to the scan. */
  function EventItems(event: Event): seq<ScanItem> {
    if event.typ != "tx" then []
    else if event.attributes.None? then [NotIterable]
    else ItemsOf(event.attributes.value)
  }

  /** All attributes of the `tx` events, flattened in order. */
  function ScanItems(events: seq<Event>): seq<ScanItem> {
    if events == [] then [] else EventItems(events[0]) + ScanItems(events[1..])
  }

  /** The text before the first slash. */
  function BeforeSlash(s: string): (r: string)
    ensures '/' !in r && r <= s && (r == s || (|r| < |s| && s[|r|] == '/'))
  {
    if s == [] || s[0] == '/' then "" else [s[0]] + BeforeSlash(s[1..])
  }

  /** Items that end the scan: a fee payer, or something it throws on. */
  predicate Stops(item: ScanItem) {
    match item
    case NotIterable => true
    case Attr(a) => a.key == FEE_PAYER || (a.key == ACC_SEQ && a.value.Bytes?)
  }

  predicate NamesSequence(item: ScanItem) {
    item.Attr? && item.attribute.key == ACC_SEQ && item.attribute.value.Text?
  }

  function Scan(items: seq<ScanItem>, accSeq: Value): Result<Value> {
    if items == [] then Returned(accSeq)
    else if Stops(items[0]) then
      if items[0].Attr? && items[0].attribute.key == FEE_PAYER then Returned(items[0].attribute.value) else Threw
    else if NamesSequence(items[0]) then Scan(items[1..], Text(BeforeSlash(items[0].attribute.value.text)))
    else Scan(items[1..], accSeq)
  }

  function FeePayer(events: seq<Event>): Result<Value> {
    Scan(ScanItems(events), Undefined)
  }

  ghost predicate FirstStop(items: seq<ScanItem>, k: nat) {
    k < |items| && Stops(items[k]) && forall i :: 0 <= i < k ==> !Stops(items[i])
  }

  ghost predicate LastSequence(items: seq<ScanItem>, k: nat) {
    k < |items| && NamesSequence(items[k]) && forall i :: k < i < |items| ==> !NamesSequence(items[i])
  }

  /** The scan, said once over the flat list: the first stopping item decides; without one, the
      last account sequence that has a value does; without that either, the initial value stays. */
  lemma {:induction false} ScanMeaning(items: seq<ScanItem>, accSeq: Value)
    ensures forall k: nat :: FirstStop(items, k) ==>
              Scan(items, accSeq) ==
                if items[k].Attr? && items[k].attribute.key == FEE_PAYER
                    then Returned(items[k].attribute.value) else Threw
    ensures (forall i :: 0 <= i < |items| ==> !Stops(items[i])) ==>
              && (forall k: nat :: LastSequence(items, k) ==>
                    Scan(items, accSeq) == Returned(Text(BeforeSlash(items[k].attribute.value.text))))
              && ((forall i :: 0 <= i < |items| ==> !NamesSequence(items[i])) ==>
                  Scan(items, accSeq) == Returned(accSeq))
  {
    if items == [] || Stops(items[0]) { return; }
    var tail := items[1..];
    var next := if NamesSequence(items[0]) then Text(BeforeSlash(items[0].attribute.value.text)) else accSeq;
    ScanMeaning(tail, next);
    assert forall i :: 0 <= i < |tail| ==> tail[i] == items[i + 1];
    forall k: nat | FirstStop(items, k)
      ensures k > 0 && FirstStop(tail, k - 1)
    {}
    if forall i :: 0 <= i < |items| ==> !Stops(items[i]) {
      forall k: nat | LastSequence(items, k)
        ensures Scan(items, accSeq) == Returned(Text(BeforeSlash(items[k].attribute.value.text)))
      {
        if k > 0 {
          assert LastSequence(tail, k - 1);
        } else {
          assert forall i :: 0 <= i < |tail| ==> !NamesSequence(tail[i]);
        }
      }
    }
  }

  // ------------------------------------------- the fee payer over the raw events

  /** The place of an attribute, or of an event without an attribute list, among the `tx` events. */
  ghost predicate Scanned(events: seq<Event>, i: nat, j: nat) {
    && i < |events| && events[i].typ == "tx"
    && (if events[i].attributes.Some? then j < |events[i].attributes.value| else j == 0)
  }

  ghost predicate KeyAt(events: seq<Event>, i: nat, j: nat, key: string) {
    Scanned(events, i, j) && events[i].attributes.Some? && events[i].attributes.value[j].key == Text(key)
  }

  /** Going on to this place throws: there is nothing to iterate over, or nothing to split. */
  ghost predicate ThrowsAt(events: seq<Event>, i: nat, j: nat) {
    && Scanned(events, i, j)
    && (events[i].attributes.None? || (KeyAt(events, i, j, "acc_seq") && events[i].attributes.value[j].value.Bytes?))
  }

  ghost predicate SequenceAt(events: seq<Event>, i: nat, j: nat) {
    KeyAt(events, i, j, "acc_seq") && events[i].attributes.value[j].value.Text?
  }

  ghost predicate Ahead(i: nat, j: nat, k: nat, l: nat) {
    i < k || (i == k && j < l)
  }

  ghost predicate Undisturbed(events: seq<Event>, i: nat, j: nat) {
    forall k: nat, l: nat :: Ahead(k, l, i, j) ==> !KeyAt(events, k, l, "fee_payer") && !ThrowsAt(events, k, l)
  }

  ghost predicate FirstPayer(events: seq<Event>, i: nat, j: nat) {
    KeyAt(events, i, j, "fee_payer") && Undisturbed(events, i, j)
  }

  ghost predicate FinalSequence(events: seq<Event>, i: nat, j: nat) {
    SequenceAt(events, i, j) && forall k: nat, l: nat :: Ahead(i, j, k, l) ==> !SequenceAt(events, k, l)
  }

  ghost predicate RunsThrough(events: seq<Event>) {
    forall k: nat, l: nat :: !KeyAt(events, k, l, "fee_payer") && !ThrowsAt(events, k, l)
  }

  /** `v` is the value of the first `fee_payer`; without one, the part before the first slash of the last
      `acc_seq` that has a value; without that either, undefined. */
  ghost predicate PayerIs(events: seq<Event>, v: Value) {
    || (exists i: nat, j: nat :: FirstPayer(events, i, j) && events[i].attributes.value[j].value == v)
    || (RunsThrough(events) && exists i: nat, j: nat :: FinalSequence(events, i, j) && CutsSequence(events, i, j, v))
    || (RunsThrough(events) && v == Undefined && forall i: nat, j: nat :: !SequenceAt(events, i, j))
  }

  ghost predicate CutsSequence(events: seq<Event>, i: nat, j: nat, v: Value)
    requires SequenceAt(events, i, j)
  {
    v.Text? && UpToSlash(v.text, events[i].attributes.value[j].value.text)
  }

  ghost predicate UpToSlash(r: string, s: string) {
    '/' !in r && r <= s && (r == s || (|r| < |s| && s[|r|] == '/'))
  }

  /** The scan throws before it meets a fee payer. */
  ghost predicate ThrowsFirst(events: seq<Event>) {
    exists i: nat, j: nat :: ThrowsAt(events, i, j) && Undisturbed(events, i, j)
  }

  /** The places of the items of the flat list. */
  function ItemPlaces(events: seq<Event>): seq<(nat, nat)> {
    if events == [] then [] else
    var i := |events| - 1;
    ItemPlaces(events[..i]) + LastPlaces(events)
  }

  lemma {:induction false} ScanItemsSnoc(front: seq<Event>, event: Event)
    ensures ScanItems(front + [event]) == ScanItems(front) + EventItems(event)
  {
    var events := front + [event];
    if front == [] {
      assert events[0] == event && events[1..] == [];
    } else {
      assert events[0] == front[0] && events[1..] == front[1..] + [event];
      ScanItemsSnoc(front[1..], event);
    }
  }

  ghost predicate ItemAt(events: seq<Event>, item: ScanItem, place: (nat, nat)) {
    && Scanned(events, place.0, place.1)
    && item == if events[place.0].attributes.None? then NotIterable
               else Attr(events[place.0].attributes.value[place.1])
  }

  /** The places of the last event. */
  function LastPlaces(events: seq<Event>): seq<(nat, nat)>
    requires events != []
  {
    var i := |events| - 1;
    if events[i].typ != "tx" then []
    else if events[i].attributes.None? then [(i, 0)]
    else seq(|events[i].attributes.value|, j => (i, j))
  }

  lemma LastInPlace(events: seq<Event>)
    requires events != []
    ensures var items, places := EventItems(events[|events| - 1]), LastPlaces(events);
            |items| == |places| && forall x :: 0 <= x < |items| ==> ItemAt(events, items[x], places[x])
  {}

  lemma {:induction false} ItemsInPlace(events: seq<Event>)
    ensures var items, places := ScanItems(events), ItemPlaces(events);
            |items| == |places| && forall x :: 0 <= x < |items| ==> ItemAt(events, items[x], places[x])
  {
    if events == [] {
    } else {
      var front := events[..|events| - 1];
      ItemsInPlace(front);
      ScanItemsSnoc(front, events[|events| - 1]);
      assert events == front + [events[|events| - 1]];
      LastInPlace(events);
      forall x | 0 <= x < |ScanItems(front)| ensures ItemAt(events, ScanItems(front)[x], ItemPlaces(front)[x]) {
        assert ItemAt(front, ScanItems(front)[x], ItemPlaces(front)[x]);
      }
      ItemsConcat(events, ScanItems(front), ItemPlaces(front), EventItems(events[|front|]), LastPlaces(events));
    }
  }

  lemma ItemsConcat(events: seq<Event>, a: seq<ScanItem>, p: seq<(nat, nat)>, b: seq<ScanItem>, q: seq<(nat, nat)>)
    requires |a| == |p| && forall x :: 0 <= x < |a| ==> ItemAt(events, a[x], p[x])
    requires |b| == |q| && forall x :: 0 <= x < |b| ==> ItemAt(events, b[x], q[x])
    ensures forall x :: 0 <= x < |a + b| ==> ItemAt(events, (a + b)[x], (p + q)[x])
  {}

  ghost predicate Ordered(places: seq<(nat, nat)>, n: nat) {
    && (forall x :: 0 <= x < |places| ==> places[x].0 < n)
    && (forall x, y :: 0 <= x < y < |places| ==> Ahead(places[x].0, places[x].1, places[y].0, places[y].1))
  }

  lemma OrderedSnoc(front: seq<(nat, nat)>, last: seq<(nat, nat)>, n: nat)
    requires Ordered(front, n) && forall x :: 0 <= x < |last| ==> last[x] == (n, x)
    ensures Ordered(front + last, n + 1)
  {}

  lemma {:induction false} PlacesOrdered(events: seq<Event>)
    ensures Ordered(ItemPlaces(events), |events|)
  {
    if events == [] {
    } else {
      PlacesOrdered(events[..|events| - 1]);
      OrderedSnoc(ItemPlaces(events[..|events| - 1]), LastPlaces(events), |events| - 1);
    }
  }

  lemma {:induction false} PlacesComplete(events: seq<Event>, i: nat, j: nat)
    requires Scanned(events, i, j)
    ensures (i, j) in ItemPlaces(events)
  {
    var n := |events| - 1;
    if i < n {
      PlacesComplete(events[..n], i, j);
    } else {
      assert LastPlaces(events)[j] == (i, j);
    }
  }

  lemma PlaceOf(events: seq<Event>, i: nat, j: nat) returns (x: nat)
    requires Scanned(events, i, j)
    ensures x < |ScanItems(events)| == |ItemPlaces(events)| && ItemPlaces(events)[x] == (i, j)
    ensures ItemAt(events, ScanItems(events)[x], (i, j))
  {
    ItemsInPlace(events);
    PlacesComplete(events, i, j);
    x :| 0 <= x < |ItemPlaces(events)| && ItemPlaces(events)[x] == (i, j);
  }

  /** Items of a list that stand before a place. */
  lemma StopMeaning(events: seq<Event>, x: nat)
    requires x < |ScanItems(events)|
    ensures |ScanItems(events)| == |ItemPlaces(events)|
    ensures var (i, j) := ItemPlaces(events)[x];
            && ItemAt(events, ScanItems(events)[x], (i, j))
            && (Stops(ScanItems(events)[x]) <==> KeyAt(events, i, j, "fee_payer") || ThrowsAt(events, i, j))
            && (NamesSequence(ScanItems(events)[x]) <==> SequenceAt(events, i, j))
  {
    ItemsInPlace(events);
  }

  lemma FirstStopMeaning(events: seq<Event>, x: nat)
    requires x < |ScanItems(events)|
    ensures |ScanItems(events)| == |ItemPlaces(events)|
    ensures var (i, j) := ItemPlaces(events)[x];
            FirstStop(ScanItems(events), x) <==>
              (KeyAt(events, i, j, "fee_payer") || ThrowsAt(events, i, j)) && Undisturbed(events, i, j)
  {
    ItemsInPlace(events);
    PlacesOrdered(events);
    var items, places := ScanItems(events), ItemPlaces(events);
    var (i, j) := places[x];
    StopMeaning(events, x);
    if FirstStop(items, x) {
      forall k: nat, l: nat | Ahead(k, l, i, j)
        ensures !KeyAt(events, k, l, "fee_payer") && !ThrowsAt(events, k, l)
      {
        if Scanned(events, k, l) {
          var y := PlaceOf(events, k, l);
          StopMeaning(events, y);
          assert y < x;
        }
      }
    }
    if Undisturbed(events, i, j) {
      forall y | 0 <= y < x ensures !Stops(items[y]) {
        StopMeaning(events, y);
        assert Ahead(places[y].0, places[y].1, i, j);
      }
    }
  }

  lemma LastSequenceMeaning(events: seq<Event>, x: nat)
    requires x < |ScanItems(events)|
    ensures |ScanItems(events)| == |ItemPlaces(events)|
    ensures var (i, j) := ItemPlaces(events)[x];
            LastSequence(ScanItems(events), x) <==> FinalSequence(events, i, j)
  {
    ItemsInPlace(events);
    PlacesOrdered(events);
    var items, places := ScanItems(events), ItemPlaces(events);
    var (i, j) := places[x];
    StopMeaning(events, x);
    if LastSequence(items, x) {
      forall k: nat, l: nat | Ahead(i, j, k, l) ensures !SequenceAt(events, k, l) {
        if Scanned(events, k, l) {
          var y := PlaceOf(events, k, l);
          StopMeaning(events, y);
          assert y > x;
        }
      }
    }
    if FinalSequence(events, i, j) {
      forall y | x < y < |items| ensures !NamesSequence(items[y]) {
        StopMeaning(events, y);
        assert Ahead(i, j, places[y].0, places[y].1);
      }
    }
  }

  lemma NoStops(events: seq<Event>)
    ensures RunsThrough(events) <==> forall x :: 0 <= x < |ScanItems(events)| ==> !Stops(ScanItems(events)[x])
  {
    if RunsThrough(events) {
      forall x | 0 <= x < |ScanItems(events)| ensures !Stops(ScanItems(events)[x]) {
        StopMeaning(events, x);
        var (i, j) := ItemPlaces(events)[x];
        assert !KeyAt(events, i, j, "fee_payer") && !ThrowsAt(events, i, j);
      }
    } else {
      var k: nat, l: nat :| KeyAt(events, k, l, "fee_payer") || ThrowsAt(events, k, l);
      var y := PlaceOf(events, k, l);
      StopMeaning(events, y);
    }
  }

  lemma FirstStopExists(items: seq<ScanItem>) returns (x: nat)
    requires exists i :: 0 <= i < |items| && Stops(items[i])
    ensures FirstStop(items, x)
  {
    x := 0;
    while !Stops(items[x])
      invariant x < |items| && forall i :: 0 <= i < x ==> !Stops(items[i])
      decreases |items| - x
    {
      x := x + 1;
    }
  }

  lemma LastSequenceExists(items: seq<ScanItem>) returns (x: nat)
    requires exists i :: 0 <= i < |items| && NamesSequence(items[i])
    ensures LastSequence(items, x)
  {
    x := |items| - 1;
    while !NamesSequence(items[x])
      invariant x < |items| && forall i :: x < i < |items| ==> !NamesSequence(items[i])
      decreases x
    {
      x := x - 1;
    }
  }

  lemma SlashUnique(s: string, a: string, b: string)
    requires UpToSlash(a, s) && UpToSlash(b, s)
    ensures a == b
  {
    assert forall i :: 0 <= i < |a| ==> s[i] == a[i] && a[i] in a;
    assert forall i :: 0 <= i < |b| ==> s[i] == b[i] && b[i] in b;
  }

  /** What the scan returns and when it throws, over the raw events of a response. */
  lemma PayerMeaning(events: seq<Event>, v: Value)
    ensures FeePayer(events) == Returned(v) <==> PayerIs(events, v)
    ensures FeePayer(events).Threw? <==> ThrowsFirst(events)
  {
    var items := ScanItems(events);
    ScanMeaning(items, Undefined);
    ItemsInPlace(events);
    NoStops(events);
    if exists i :: 0 <= i < |items| && Stops(items[i]) {
      StoppedScan(events, v);
    } else {
      UnstoppedScan(events, v);
    }
  }

  lemma StoppedScan(events: seq<Event>, v: Value)
    requires exists i :: 0 <= i < |ScanItems(events)| && Stops(ScanItems(events)[i])
    ensures FeePayer(events) == Returned(v) <==> PayerIs(events, v)
    ensures FeePayer(events).Threw? <==> ThrowsFirst(events)
  {
    var x := FirstStopExists(ScanItems(events));
    ScanMeaning(ScanItems(events), Undefined);
    ItemsInPlace(events);
    NoStops(events);
    FirstStopMeaning(events, x);
    StopMeaning(events, x);
    var (i, j) := ItemPlaces(events)[x];
    forall k: nat, l: nat | (KeyAt(events, k, l, "fee_payer") || ThrowsAt(events, k, l)) && Undisturbed(events, k, l)
      ensures k == i && l == j
    {
      assert !Ahead(i, j, k, l) && !Ahead(k, l, i, j);
    }
    if KeyAt(events, i, j, "fee_payer") {
      assert FirstPayer(events, i, j);
    } else {
      assert ThrowsAt(events, i, j);
    }
  }

  lemma UnstoppedScan(events: seq<Event>, v: Value)
    requires forall i :: 0 <= i < |ScanItems(events)| ==> !Stops(ScanItems(events)[i])
    ensures FeePayer(events) == Returned(v) <==> PayerIs(events, v)
    ensures FeePayer(events).Returned? && !ThrowsFirst(events)
  {
    NoStops(events);
    if exists i :: 0 <= i < |ScanItems(events)| && NamesSequence(ScanItems(events)[i]) {
      var x := LastSequenceExists(ScanItems(events));
      SequencedScan(events, v, x);
    } else {
      UnsequencedScan(events, v);
    }
  }

  lemma SequencedScan(events: seq<Event>, v: Value, x: nat)
    requires RunsThrough(events) && LastSequence(ScanItems(events), x)
    ensures FeePayer(events) == Returned(v) <==> PayerIs(events, v)
    ensures FeePayer(events).Returned?
  {
    var items := ScanItems(events);
    NoStops(events);
    ScanMeaning(items, Undefined);
    LastSequenceMeaning(events, x);
    StopMeaning(events, x);
    var (i, j) := ItemPlaces(events)[x];
    var text := items[x].attribute.value.text;
    assert FinalSequence(events, i, j) && CutsSequence(events, i, j, Text(BeforeSlash(text)));
    forall k: nat, l: nat | FinalSequence(events, k, l) ensures k == i && l == j {
      assert !Ahead(i, j, k, l) && !Ahead(k, l, i, j);
    }
    if CutsSequence(events, i, j, v) { SlashUnique(text, v.text, BeforeSlash(text)); }
  }

  lemma NoSequences(events: seq<Event>, i: nat, j: nat)
    requires forall x :: 0 <= x < |ScanItems(events)| ==> !NamesSequence(ScanItems(events)[x])
    ensures !SequenceAt(events, i, j)
  {
    if Scanned(events, i, j) {
      var x := PlaceOf(events, i, j);
      StopMeaning(events, x);
    }
  }

  lemma UnsequencedScan(events: seq<Event>, v: Value)
    requires RunsThrough(events)
    requires forall i :: 0 <= i < |ScanItems(events)| ==> !NamesSequence(ScanItems(events)[i])
    ensures FeePayer(events) == Returned(v) <==> PayerIs(events, v)
    ensures FeePayer(events).Returned?
  {
    NoStops(events);
    ScanMeaning(ScanItems(events), Undefined);
    assert FeePayer(events) == Returned(Undefined);
    forall i: nat, j: nat ensures !SequenceAt(events, i, j) && !FirstPayer(events, i, j) {
      NoSequences(events, i, j);
      assert !KeyAt(events, i, j, "fee_payer");
    }
  }

  /** One step of the scan. */
  lemma ScanNext(item: ScanItem, rest: seq<ScanItem>, accSeq: Value)
    ensures Scan([item] + rest, accSeq) ==
            if Stops(item) then
              if item.Attr? && item.attribute.key == FEE_PAYER then Returned(item.attribute.value) else Threw
            else if NamesSequence(item) then Scan(rest, Text(BeforeSlash(item.attribute.value.text)))
            else Scan(rest, accSeq)
  {
    var items := [item] + rest;
    assert items[0] == item && items[1..] == rest;
  }

  lemma ScanStep(attributes: seq<Attribute>, j: nat, rest: seq<ScanItem>)
    requires j < |attributes|
    ensures ItemsOf(attributes[j..]) + rest == [Attr(attributes[j])] + (ItemsOf(attributes[j + 1..]) + rest)
  {}

  method ExtractFeePayer(events: seq<Event>) returns (r: Result<Value>)
    ensures r == FeePayer(events)
  {
    var accSeq := Undefined;
    for i := 0 to |events|
      invariant Scan(ScanItems(events[i..]), accSeq) == FeePayer(events)
    {
      var event := events[i];
      ghost var rest := ScanItems(events[i + 1..]);
      assert events[i..][0] == event && events[i..][1..] == events[i + 1..];
      if event.typ == "tx" {
        if event.attributes.None? {
          return Threw;
        }
        var attributes := event.attributes.value;
        assert attributes[0..] == attributes;
        for j := 0 to |attributes|
          invariant Scan(ItemsOf(attributes[j..]) + rest, accSeq) == FeePayer(events)
        {
          var attr := attributes[j];
          ScanStep(attributes, j, rest);
          ScanNext(Attr(attr), ItemsOf(attributes[j + 1..]) + rest, accSeq);
          if attr.key == FEE_PAYER {
            return Returned(attr.value);
          }
          if attr.key == ACC_SEQ {
            match attr.value {
              case Text(text) => accSeq := Text(BeforeSlash(text));
              case Bytes(_) => return Threw;
              case Undefined =>
            }
          }
        }
        assert ItemsOf(attributes[|attributes|..]) + rest == rest;
      } else {
        assert [] + rest == rest;
      }
    }
    r := Returned(accSeq);
  }

  // ------------------------------------------------- transactions and messages

  datatype Synced = Synced(allMessages: seq<MessageCore>, allTransactions: seq<TransactionCore>)

  /** The rows of the decodable messages of one transaction. */
  function MessagesOf(reg: Registry, messages: seq<AnyMessage>, hash: string, txIndex: nat): seq<MessageCore> {
    if messages == [] then [] else
    var i := |messages| - 1;
    var rest := MessagesOf(reg, messages[..i], hash, txIndex);
    match reg.decodeMessage(messages[i])
    case Some(value) => rest + [MessageCore(messages[i].typeUrl, value, hash, i, txIndex)]
    case None => rest
  }

  /** Some step of handling this response throws. */
  predicate Breaks(reg: Registry, tr: TxResponse) {
    match reg.decodeTx(tr.tx)
    case None => false
    case Some(d) => FeePayer(tr.events).Threw? || d.body.None? || d.authInfo.None?
  }

  function TransactionOf(d: DecodedTx, tr: TxResponse, txIndex: nat): TransactionCore
    requires d.body.Some? && d.authInfo.Some? && FeePayer(tr.events).Returned?
  {
    TransactionCore(tr.txhash, tr.code, d.authInfo.value.fee, d.body.value.memo, tr.gasUsed, tr.gasWanted,
                    FeePayer(tr.events).value, txIndex)
  }

  function SyncTransactionsSpec(reg: Registry, responses: seq<TxResponse>): Result<Synced> {
    if responses == [] then Returned(Synced([], [])) else
    var txIndex := |responses| - 1;
    var tr := responses[txIndex];
    match SyncTransactionsSpec(reg, responses[..txIndex])
    case Threw => Threw
    case Returned(front) =>
      if Breaks(reg, tr) then Threw else
      match reg.decodeTx(tr.tx)
      case None => Returned(front)
      case Some(d) => Returned(Synced(front.allMessages + MessagesOf(reg, d.body.value.messages, tr.txhash, txIndex),
                                      front.allTransactions + [TransactionOf(d, tr, txIndex)]))
  }

  method SyncTransactions(reg: Registry, responses: seq<TxResponse>) returns (r: Result<Synced>)
    ensures r == SyncTransactionsSpec(reg, responses)
  {
    var allMessages: seq<MessageCore> := [];
    var allTransactions: seq<TransactionCore> := [];
    for txIndex := 0 to |responses|
      invariant SyncTransactionsSpec(reg, responses[..txIndex]) == Returned(Synced(allMessages, allTransactions))
    {
      var tr := responses[txIndex];
      assert responses[..txIndex + 1][..txIndex] == responses[..txIndex];
      var transaction := reg.decodeTx(tr.tx);
      if transaction.Some? {
        var feePayer := ExtractFeePayer(tr.events);
        if feePayer.Threw? || transaction.value.body.None? {
          BreaksEarly(reg, responses, txIndex);
          return Threw;
        }
        var messages := transaction.value.body.value.messages;
        ghost var before := allMessages;
        for i := 0 to |messages|
          invariant allMessages == before + MessagesOf(reg, messages[..i], tr.txhash, txIndex)
        {
          assert messages[..i + 1][..i] == messages[..i];
          var m := messages[i];
          var value := reg.decodeMessage(m);
          if value.Some? {
            allMessages := allMessages + [MessageCore(m.typeUrl, value.value, tr.txhash, i, txIndex)];
          }
        }
        assert messages[..|messages|] == messages;
        if transaction.value.authInfo.None? {
          BreaksEarly(reg, responses, txIndex);
          return Threw;
        }
        allTransactions := allTransactions +
          [TransactionCore(tr.txhash, tr.code, transaction.value.authInfo.value.fee, transaction.value.body.value.memo,
                           tr.gasUsed, tr.gasWanted, feePayer.value, txIndex)];
      }
    }
    assert responses[..|responses|] == responses;
    r := Returned(Synced(allMessages, allTransactions));
  }

  /** Handling a list of responses throws exactly when handling one of them does. */
  lemma {:induction false} ThrowsExactly(reg: Registry, responses: seq<TxResponse>)
    ensures SyncTransactionsSpec(reg, responses).Threw? <==>
        exists i :: 0 <= i < |responses| && Breaks(reg, responses[i])
  {
    if responses == [] {
    } else {
      var front := responses[..|responses| - 1];
      ThrowsExactly(reg, front);
      assert forall i :: 0 <= i < |front| ==> front[i] == responses[i];
    }
  }

  lemma BreaksEarly(reg: Registry, responses: seq<TxResponse>, i: nat)
    requires i < |responses| && Breaks(reg, responses[i])
    ensures SyncTransactionsSpec(reg, responses) == Threw
  {
    ThrowsExactly(reg, responses);
  }

  // ------------------------------------------------------------------- shape

  ghost predicate Before(a: MessageCore, b: MessageCore) {
    a.txIndex < b.txIndex || (a.txIndex == b.txIndex && a.index < b.index)
  }

  /** `m` is the row of the decodable message number `m.index` of response number `m.txIndex`. */
  ghost predicate MessageFrom(reg: Registry, responses: seq<TxResponse>, m: MessageCore) {
    && m.txIndex < |responses|
    && var tr := responses[m.txIndex];
       var d := reg.decodeTx(tr.tx);
       && d.Some? && d.value.body.Some? && m.index < |d.value.body.value.messages|
       && var raw := d.value.body.value.messages[m.index];
          && reg.decodeMessage(raw) == Some(m.value)
          && m.typeUrl == raw.typeUrl && m.transactionHash == tr.txhash
  }

  /** `t` is the row of the decodable response number `t.txIndex`. */
  ghost predicate TransactionFrom(reg: Registry, responses: seq<TxResponse>, t: TransactionCore) {
    && t.txIndex < |responses|
    && var tr := responses[t.txIndex];
       var d := reg.decodeTx(tr.tx);
       && d.Some? && d.value.body.Some? && d.value.authInfo.Some?
       && t.hash == tr.txhash && t.code == tr.code && t.fee == d.value.authInfo.value.fee
       && t.memo == d.value.body.value.memo && t.gasUsed == tr.gasUsed && t.gasWanted == tr.gasWanted
       && PayerIs(tr.events, t.feePayer)
  }

  lemma {:induction false} MessagesOfShape(reg: Registry, messages: seq<AnyMessage>, hash: string, txIndex: nat)
    ensures var ms := MessagesOf(reg, messages, hash, txIndex);
            && (forall i, j :: 0 <= i < j < |ms| ==> ms[i].index < ms[j].index)
            && (forall m :: m in ms <==>
                  && m.txIndex == txIndex && m.index < |messages| && m.transactionHash == hash
                  && m.typeUrl == messages[m.index].typeUrl && reg.decodeMessage(messages[m.index]) == Some(m.value))
  {
    if messages == [] {
    } else {
      var front := messages[..|messages| - 1];
      MessagesOfShape(reg, front, hash, txIndex);
      var ms := MessagesOf(reg, messages, hash, txIndex);
      forall m
        ensures m in ms <==>
                && m.txIndex == txIndex && m.index < |messages| && m.transactionHash == hash
                && m.typeUrl == messages[m.index].typeUrl && reg.decodeMessage(messages[m.index]) == Some(m.value)
      {
        if m.index < |front| { assert front[m.index] == messages[m.index]; }
      }
    }
  }

  /** Transactions come out in strictly increasing `txIndex`, messages in strictly increasing
      (`txIndex`, `index`), and both lists hold exactly the decodable items at their positions. */
  lemma {:induction false} TransactionShape(reg: Registry, responses: seq<TxResponse>)
    requires SyncTransactionsSpec(reg, responses).Returned?
    ensures var out := SyncTransactionsSpec(reg, responses).value;
            && (forall i, j :: 0 <= i < j < |out.allTransactions| ==>
                  out.allTransactions[i].txIndex < out.allTransactions[j].txIndex)
            && (forall i, j :: 0 <= i < j < |out.allMessages| ==> Before(out.allMessages[i], out.allMessages[j]))
            && (forall t :: t in out.allTransactions <==> TransactionFrom(reg, responses, t))
            && (forall m :: m in out.allMessages <==> MessageFrom(reg, responses, m))
  {
    if responses == [] { return; }
    var n := |responses| - 1;
    var front, tr := responses[..n], responses[n];
    TransactionShape(reg, front);
    var out := SyncTransactionsSpec(reg, responses).value;
    var out0 := SyncTransactionsSpec(reg, front).value;
    var d := reg.decodeTx(tr.tx);
    if d.Some? {
      MessagesOfShape(reg, d.value.body.value.messages, tr.txhash, n);
    }
    forall t ensures t in out.allTransactions <==> TransactionFrom(reg, responses, t) {
      PayerMeaning(tr.events, t.feePayer);
      assert t.txIndex < n ==> front[t.txIndex] == responses[t.txIndex];
      assert t in out0.allTransactions <==> TransactionFrom(reg, front, t);
    }
    forall m ensures m in out.allMessages <==> MessageFrom(reg, responses, m) {
      assert m.txIndex < n ==> front[m.txIndex] == responses[m.txIndex];
      assert m in out0.allMessages <==> MessageFrom(reg, front, m);
    }
    TransactionOrder(out0.allTransactions, out.allTransactions, reg, front);
    MessageOrder(reg, responses);
  }

  lemma TransactionOrder(a: seq<TransactionCore>, b: seq<TransactionCore>, reg: Registry, front: seq<TxResponse>)
    requires forall i, j :: 0 <= i < j < |a| ==> a[i].txIndex < a[j].txIndex
    requires forall t :: t in a <==> TransactionFrom(reg, front, t)
    requires b == a || (|b| == |a| + 1 && b[..|a|] == a && b[|a|].txIndex == |front|)
    ensures forall i, j :: 0 <= i < j < |b| ==> b[i].txIndex < b[j].txIndex
  {
    forall i, j | 0 <= i < j < |b| ensures b[i].txIndex < b[j].txIndex {
      if j < |a| {
        assert b[i] == b[..|a|][i] && b[j] == b[..|a|][j];
      } else {
        assert b[i] == b[..|a|][i];
        assert b[i] in a;
      }
    }
  }

  lemma {:induction false} MessageOrder(reg: Registry, responses: seq<TxResponse>)
    requires SyncTransactionsSpec(reg, responses).Returned?
    ensures var ms := SyncTransactionsSpec(reg, responses).value.allMessages;
            && (forall i :: 0 <= i < |ms| ==> ms[i].txIndex < |responses|)
            && (forall i, j :: 0 <= i < j < |ms| ==> Before(ms[i], ms[j]))
  {
    if responses == [] { return; }
    var n := |responses| - 1;
    MessageOrder(reg, responses[..n]);
    var d := reg.decodeTx(responses[n].tx);
    if d.Some? {
      var front := SyncTransactionsSpec(reg, responses[..n]).value.allMessages;
      var own := MessagesOf(reg, d.value.body.value.messages, responses[n].txhash, n);
      MessagesOfShape(reg, d.value.body.value.messages, responses[n].txhash, n);
      var ms := front + own;
      forall i, j | 0 <= i < j < |ms| ensures Before(ms[i], ms[j]) && ms[i].txIndex < |responses| &&
          ms[j].txIndex < |responses| {
        assert j >= |front| ==> own[j - |front|] in own;
        assert i >= |front| ==> own[i - |front|] in own;
      }
      forall i | 0 <= i < |ms| ensures ms[i].txIndex < |responses| {
        assert i >= |front| ==> own[i - |front|] in own;
      }
    }
  }
}
