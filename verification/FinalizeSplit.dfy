/** Splitting a block's finalize events into begin-block and end-block events
    (src/sync/sync_blocks.ts). */
module FinalizeSplit {
  import opened Prelude
  import opened RawData

  datatype Side = BeginSide | EndSide | NoSide

  datatype BlockResults = BlockResults(
    finalizeBlockEvents: seq<Event>, beginBlockEvents: seq<Event>, endBlockEvents: seq<Event>)

  const MODE: Value := Text("mode")

  /** The value of the first `mode` attribute. */
  function Mode(attributes: seq<Attribute>): Option<Value> {
    if attributes == [] then None
    else if attributes[0].key == MODE then Some(attributes[0].value)
    else Mode(attributes[1..])
  }

  function SideOf(event: Event): Side {
    if event.attributes.None? then NoSide else
    match Mode(event.attributes.value)
    case None => NoSide
    case Some(v) => if v == Text("BeginBlock") then BeginSide else if v == Text("EndBlock") then EndSide else NoSide
  }

  function OnSide(side: Side): Event -> Option<Event> {
    (e: Event) => if SideOf(e) == side then Some(e) else None
  }

  /** `Mode` reads exactly the first `mode` attribute, wherever it stands. */
  lemma {:induction false} ModeIsFirst(attributes: seq<Attribute>, v: Value)
    ensures Mode(attributes) == Some(v) <==>
            exists j :: 0 <= j < |attributes| && attributes[j] == Attribute(MODE, v) &&
                        forall k :: 0 <= k < j ==> attributes[k].key != MODE
    ensures Mode(attributes) == None <==> forall k :: 0 <= k < |attributes| ==> attributes[k].key != MODE
  {
    if attributes != [] && attributes[0].key != MODE {
      var tail := attributes[1..];
      ModeIsFirst(tail, v);
      if j :| 0 <= j < |tail| && tail[j] == Attribute(MODE, v) && forall k :: 0 <= k < j ==> tail[k].key != MODE {
        assert attributes[j + 1] == Attribute(MODE, v);
        forall k | 0 <= k < j + 1 ensures attributes[k].key != MODE {
          if k > 0 { assert tail[k - 1] == attributes[k]; }
        }
      }
      if j :| 0 <= j < |attributes| && attributes[j] == Attribute(MODE, v) &&
              forall k :: 0 <= k < j ==> attributes[k].key != MODE {
        assert tail[j - 1] == attributes[j];
        forall k | 0 <= k < j - 1 ensures tail[k].key != MODE {
          assert tail[k] == attributes[k + 1];
        }
      }
      forall k | 0 <= k < |tail| ensures tail[k] == attributes[k + 1] {}
    } else if attributes != [] {
      assert attributes[0] == Attribute(MODE, attributes[0].value);
    }
  }

  /** The first attribute with key `mode` has the value `mode`. */
  ghost predicate FirstModeIs(e: Event, mode: string) {
    && e.attributes.Some?
    && exists j :: 0 <= j < |e.attributes.value| && e.attributes.value[j] == Attribute(Text("mode"), Text(mode)) &&
                   forall k :: 0 <= k < j ==> e.attributes.value[k].key != Text("mode")
  }

  /** Which side an event goes to, in terms of its attributes. */
  lemma SideMeaning(e: Event)
    ensures SideOf(e) == BeginSide <==> FirstModeIs(e, "BeginBlock")
    ensures SideOf(e) == EndSide <==> FirstModeIs(e, "EndBlock")
  {
    if e.attributes.Some? {
      ModeIsFirst(e.attributes.value, Text("BeginBlock"));
      ModeIsFirst(e.attributes.value, Text("EndBlock"));
    }
  }

  lemma SplitMeaning(events: seq<Event>, e: Event)
    ensures e in FilterMap(OnSide(BeginSide), events) <==> e in events && FirstModeIs(e, "BeginBlock")
    ensures e in FilterMap(OnSide(EndSide), events) <==> e in events && FirstModeIs(e, "EndBlock")
  {
    SideMeaning(e);
    KeptSide(BeginSide, events, e);
    KeptSide(EndSide, events, e);
  }

  lemma KeptSide(side: Side, events: seq<Event>, e: Event)
    ensures e in FilterMap(OnSide(side), events) <==> e in events && SideOf(e) == side
  {
    FilterMapPositions(OnSide(side), events);
    if e in events && SideOf(e) == side {
      var k :| 0 <= k < |events| && events[k] == e;
      assert k in Kept(OnSide(side), events);
    }
  }

  method SplitFinalizeEvents(events: seq<Event>) returns (begin: seq<Event>, end: seq<Event>)
    ensures begin == FilterMap(OnSide(BeginSide), events)
    ensures end == FilterMap(OnSide(EndSide), events)
    ensures forall e :: e in begin <==> e in events && FirstModeIs(e, "BeginBlock")
    ensures forall e :: e in end <==> e in events && FirstModeIs(e, "EndBlock")
  {
    begin, end := [], [];
    for i := 0 to |events|
      invariant begin == FilterMap(OnSide(BeginSide), events[..i])
      invariant end == FilterMap(OnSide(EndSide), events[..i])
    {
      var event := events[i];
      assert events[..i + 1][..i] == events[..i] && events[..i + 1][i] == event;
      if event.attributes.None? {
        continue;
      }
      var attributes := event.attributes.value;
      ghost var begin0, end0 := begin, end;
      for j := 0 to |attributes|
        invariant begin == begin0 && end == end0
        invariant forall k :: 0 <= k < j ==> attributes[k].key != MODE
      {
        var attr := attributes[j];
        if attr.key == MODE {
          ModeIsFirst(attributes, attr.value);
          assert attributes[j] == Attribute(MODE, attr.value);
          if attr.value == Text("BeginBlock") {
            begin := begin + [event];
          } else if attr.value == Text("EndBlock") {
            end := end + [event];
          }
          break;
        }
      }
      ModeIsFirst(attributes, Undefined);
    }
    assert events[..|events|] == events;
    forall e { SplitMeaning(events, e); }
  }

  /** Begin-block and end-block events of a block, old and new node format. */
  method BlockEvents(results: BlockResults) returns (begin: seq<Event>, end: seq<Event>)
    ensures (begin, end) == BlockEventsSpec(results)
  {
    if |results.finalizeBlockEvents| > 0 {
      begin, end := SplitFinalizeEvents(results.finalizeBlockEvents);
    } else {
      begin, end := results.beginBlockEvents, results.endBlockEvents;
    }
  }

  function BlockEventsSpec(results: BlockResults): (seq<Event>, seq<Event>) {
    if |results.finalizeBlockEvents| > 0 then
      (FilterMap(OnSide(BeginSide), results.finalizeBlockEvents),
       FilterMap(OnSide(EndSide), results.finalizeBlockEvents))
    else (results.beginBlockEvents, results.endBlockEvents)
  }

  /** Every input position lands in exactly one of begin, end and dropped; both outputs
      keep the input order; nothing is lost or invented. */
  lemma {:induction false} SplitConserves(events: seq<Event>)
    ensures var b, e, d := Kept(OnSide(BeginSide), events), Kept(OnSide(EndSide), events), Kept(OnSide(NoSide), events);
            && StrictlyIncreasing(b) && StrictlyIncreasing(e)
            && |b| == |FilterMap(OnSide(BeginSide), events)| && |e| == |FilterMap(OnSide(EndSide), events)|
            && (forall i :: 0 <= i < |b| ==> b[i] < |events| && FilterMap(OnSide(BeginSide), events)[i] == events[b[i]])
            && (forall i :: 0 <= i < |e| ==> e[i] < |events| && FilterMap(OnSide(EndSide), events)[i] == events[e[i]])
            && (forall k :: 0 <= k < |events| ==> (k in b || k in e || k in d))
            && (forall k :: !(k in b && k in e) && !(k in b && k in d) && !(k in e && k in d))
            && |b| + |e| + |d| == |events|
  {
    FilterMapPositions(OnSide(BeginSide), events);
    FilterMapPositions(OnSide(EndSide), events);
    FilterMapPositions(OnSide(NoSide), events);
    SplitCounts(events);
  }

  lemma {:induction false} SplitCounts(events: seq<Event>)
    ensures |Kept(OnSide(BeginSide), events)| + |Kept(OnSide(EndSide), events)| + |Kept(OnSide(NoSide), events)| ==
        |events|
  {
    if events == [] {
    } else {
      SplitCounts(events[..|events| - 1]);
    }
  }
}
