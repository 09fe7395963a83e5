/** Turning raw events into event rows (src/sync_handlers/event_sync_handler.ts and
    `decodeEvent` of src/util/proto.ts). */
module EventSync {
  import opened Prelude
  import opened RawData

  /** Where in a block an event was emitted. */
  datatype Origin = AtBegin | InTx(hash: string) | AtEnd

  datatype Sourced = Sourced(event: Event, origin: Origin)

  datatype EventDoc = EventDoc(typ: string, attributes: seq<Attribute>)

  function DecodeAttribute(reg: Registry): Attribute -> Option<Attribute> {
    (a: Attribute) =>
      match (reg.toJs(a.key), reg.toJs(a.value))
      case (Some(k), Some(v)) => Some(Attribute(k, v))
      case _ => None
  }

  /** The event document; it throws when there is no attribute list to map over
      or when an attribute cannot be converted. */
  function DecodeEvent(reg: Registry, event: Event): Result<EventDoc> {
    if event.attributes.None? then Threw else
    var attributes := event.attributes.value;
    if |attributes| > 0 && attributes[0].value.Text? then Returned(EventDoc(event.typ, attributes)) else
    var decoded := FilterMap(DecodeAttribute(reg), attributes);
    if |decoded| == |attributes| then Returned(EventDoc(event.typ, decoded)) else Threw
  }

  /** The row for one event, or nothing: unlisted and undecodable events are dropped. */
  function GetEventData(reg: Registry, event: Event, isBegin: bool, isEnd: bool, hash: Option<string>)
    : Option<EventCore>
  {
    if event.typ !in reg.listed then None else
    match DecodeEvent(reg, event)
    case Returned(doc) => Some(EventCore(doc.typ, doc.attributes, isBegin, isEnd, hash))
    case Threw => None
  }

  function ToCore(reg: Registry): Sourced -> Option<EventCore> {
    (s: Sourced) =>
      match s.origin
      case AtBegin => GetEventData(reg, s.event, true, false, None)
      case InTx(hash) => GetEventData(reg, s.event, false, false, Some(hash))
      case AtEnd => GetEventData(reg, s.event, false, true, None)
  }

  function Tag(events: seq<Event>, origin: Origin): seq<Sourced> {
    seq(|events|, i requires 0 <= i < |events| => Sourced(events[i], origin))
  }

  function TxEvents(responses: seq<TxResponse>): seq<Sourced> {
    if responses == [] then [] else
    var last := responses[|responses| - 1];
    TxEvents(responses[..|responses| - 1]) + Tag(last.events, InTx(last.txhash))
  }

  /** All events of a block in emission order. */
  function Emitted(begin: seq<Event>, responses: seq<TxResponse>, end: seq<Event>): seq<Sourced> {
    Tag(begin, AtBegin) + TxEvents(responses) + Tag(end, AtEnd)
  }

  function SyncEventsSpec(reg: Registry, begin: seq<Event>, responses: seq<TxResponse>, end: seq<Event>)
    : seq<EventCore>
  {
    FilterMap(ToCore(reg), Emitted(begin, responses, end))
  }

  function RowsOf(reg: Registry, events: seq<Event>, origin: Origin): seq<EventCore> {
    FilterMap(ToCore(reg), Tag(events, origin))
  }

  function TxRowsOf(reg: Registry, responses: seq<TxResponse>): seq<EventCore> {
    FilterMap(ToCore(reg), TxEvents(responses))
  }

  lemma RowsOfSnoc(reg: Registry, events: seq<Event>, i: nat, origin: Origin)
    requires i < |events|
    ensures RowsOf(reg, events[..i + 1], origin) ==
            RowsOf(reg, events[..i], origin) +
            (match ToCore(reg)(Sourced(events[i], origin)) case Some(c) => [c] case None => [])
  {
    var longer := Tag(events[..i + 1], origin);
    assert longer[..|longer| - 1] == Tag(events[..i], origin);
    assert longer[|longer| - 1] == Sourced(events[i], origin);
  }

  lemma TxRowsOfSnoc(reg: Registry, responses: seq<TxResponse>, t: nat)
    requires t < |responses|
    ensures TxRowsOf(reg, responses[..t + 1]) ==
            TxRowsOf(reg, responses[..t]) + RowsOf(reg, responses[t].events, InTx(responses[t].txhash))
  {
    assert responses[..t + 1][..t] == responses[..t];
    FilterMapConcat(ToCore(reg), TxEvents(responses[..t]), Tag(responses[t].events, InTx(responses[t].txhash)));
  }

  lemma SpecInParts(reg: Registry, begin: seq<Event>, responses: seq<TxResponse>, end: seq<Event>)
    ensures SyncEventsSpec(reg, begin, responses, end) ==
            RowsOf(reg, begin, AtBegin) + TxRowsOf(reg, responses) + RowsOf(reg, end, AtEnd)
  {
    FilterMapConcat(ToCore(reg), Tag(begin, AtBegin) + TxEvents(responses), Tag(end, AtEnd));
    FilterMapConcat(ToCore(reg), Tag(begin, AtBegin), TxEvents(responses));
  }

  method SyncEvents(reg: Registry, begin: seq<Event>, responses: seq<TxResponse>, end: seq<Event>)
    returns (allEvents: seq<EventCore>)
    ensures allEvents == SyncEventsSpec(reg, begin, responses, end)
  {
    allEvents := [];
    for i := 0 to |begin|
      invariant allEvents == RowsOf(reg, begin[..i], AtBegin)
    {
      var eventData := GetEventData(reg, begin[i], true, false, None);
      RowsOfSnoc(reg, begin, i, AtBegin);
      if eventData.Some? { allEvents := allEvents + [eventData.value]; }
    }
    ghost var first := allEvents;

    for t := 0 to |responses|
      invariant allEvents == first + TxRowsOf(reg, responses[..t])
    {
      var events := responses[t].events;
      ghost var before := allEvents;
      for i := 0 to |events|
        invariant allEvents == before + RowsOf(reg, events[..i], InTx(responses[t].txhash))
      {
        var eventData := GetEventData(reg, events[i], false, false, Some(responses[t].txhash));
        RowsOfSnoc(reg, events, i, InTx(responses[t].txhash));
        if eventData.Some? { allEvents := allEvents + [eventData.value]; }
      }
      assert events[..|events|] == events;
      TxRowsOfSnoc(reg, responses, t);
    }
    ghost var second := allEvents;

    for i := 0 to |end|
      invariant allEvents == second + RowsOf(reg, end[..i], AtEnd)
    {
      var eventData := GetEventData(reg, end[i], false, true, None);
      RowsOfSnoc(reg, end, i, AtEnd);
      if eventData.Some? { allEvents := allEvents + [eventData.value]; }
    }
    assert begin[..|begin|] == begin && responses[..|responses|] == responses && end[..|end|] == end;
    SpecInParts(reg, begin, responses, end);
  }

  /** An event is dropped exactly when its type is not listed or its attributes do not decode;
      every row carries its event's type, at most one of the two block flags, and a transaction
      hash exactly when it carries neither flag. */
  lemma EventRows(reg: Registry, begin: seq<Event>, responses: seq<TxResponse>, end: seq<Event>)
    ensures var all, rows := Emitted(begin, responses, end), SyncEventsSpec(reg, begin, responses, end);
            var kept := Kept(ToCore(reg), all);
            && StrictlyIncreasing(kept) && |rows| == |kept|
            && (forall k :: 0 <= k < |all| ==>
                  (k !in kept <==> all[k].event.typ !in reg.listed || DecodeEvent(reg, all[k].event).Threw?))
            && (forall i :: 0 <= i < |rows| ==>
                  && kept[i] < |all|
                  && var s := all[kept[i]];
                     && rows[i].typ == s.event.typ
                     && DecodeEvent(reg, s.event) == Returned(EventDoc(rows[i].typ, rows[i].attributes))
                     && rows[i].beginBlockEvent == s.origin.AtBegin?
                     && rows[i].endBlockEvent == s.origin.AtEnd?
                     && !(rows[i].beginBlockEvent && rows[i].endBlockEvent)
                     && (rows[i].transactionHash.Some? <==> !rows[i].beginBlockEvent && !rows[i].endBlockEvent)
                     && (s.origin.InTx? ==> rows[i].transactionHash == Some(s.origin.hash)))
  {
    var all := Emitted(begin, responses, end);
    FilterMapPositions(ToCore(reg), all);
    var kept := Kept(ToCore(reg), all);
    forall k | 0 <= k < |all|
      ensures k !in kept <==> all[k].event.typ !in reg.listed || DecodeEvent(reg, all[k].event).Threw?
    {
      assert k in kept <==> ToCore(reg)(all[k]).Some?;
    }
  }

  /** The attributes of a decoded event line up one to one with the raw ones: kept as they are when
      the first value is text, otherwise each one converted in place. */
  lemma DecodedAttributes(reg: Registry, event: Event)
    ensures DecodeEvent(reg, event).Threw? <==>
            event.attributes.None? ||
            (!(|event.attributes.value| > 0 && event.attributes.value[0].value.Text?) &&
             exists i :: 0 <= i < |event.attributes.value| && DecodeAttribute(reg)(event.attributes.value[i]).None?)
    ensures DecodeEvent(reg, event).Returned? ==>
              var raw, doc := event.attributes.value, DecodeEvent(reg, event).value;
              && doc.typ == event.typ && |doc.attributes| == |raw|
              && (|raw| > 0 && raw[0].value.Text? ==> doc.attributes == raw)
              && (!(|raw| > 0 && raw[0].value.Text?) ==>
                    forall i :: 0 <= i < |raw| ==> DecodeAttribute(reg)(raw[i]) == Some(doc.attributes[i]))
  {
    if event.attributes.Some? {
      AllDefined(DecodeAttribute(reg), event.attributes.value);
    }
  }

  /** A filter-map keeps its length exactly when nothing was dropped. */
  lemma {:induction false} AllDefined<A, B>(f: A -> Option<B>, s: seq<A>)
    ensures |FilterMap(f, s)| <= |s|
    ensures |FilterMap(f, s)| == |s| <==> forall i :: 0 <= i < |s| ==> f(s[i]).Some?
    ensures |FilterMap(f, s)| == |s| ==> forall i :: 0 <= i < |s| ==> f(s[i]) == Some(FilterMap(f, s)[i])
  {
    if s == [] {
    } else {
      var front := s[..|s| - 1];
      AllDefined(f, front);
      assert forall i :: 0 <= i < |front| ==> s[i] == front[i];
      if |FilterMap(f, s)| == |s| {
        assert |FilterMap(f, front)| == |front|;
      }
    }
  }
}
