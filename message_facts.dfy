/** What `process_event` guarantees for a whole message: the error answers, the gate and the
    position of the livescore save, which dict entries become details, one delay per processed
    event, rows only under the sheet flag, when the goal image is asked for, the row's columns,
    and the archive file the save leaves behind. */
module MessageFacts {
  import opened Python
  import opened Text
  import opened MatchEvents
  import opened MatchEventFacts
  import FeatureFlags
  import Directus

  // ---------------------------------------------------------------------------------------------
  // The goal

  /** Whether the goal handler asks for the image: a known player, a fixture id, match stats and
      a readable scores chain, and a team. */
  predicate GoalImageDue(c: Catalog, data: EventData)
  {
    Present(data.player) && Truthy(data.fixtureId) && Truthy(c.matchStats(data.fixtureId)) &&
    ScoresReadable(c.matchStats(data.fixtureId)) && data.team.Some?
  }

  /** The goal handler fetches the stats once when it has a player and a fixture, asks for at most
      one image (exactly when it is due) and does nothing else. */
  lemma {:induction false} GoalCalls(c: Catalog, data: EventData, k: Kind)
    ensures Count(GoalRun(c, data).calls, StatsKind) == (if Present(data.player) && Truthy(data.fixtureId) then 1 else 0)
    ensures Count(GoalRun(c, data).calls, GoalKind) == (if GoalImageDue(c, data) then 1 else 0)
    ensures k != StatsKind && k != GoalKind ==> Count(GoalRun(c, data).calls, k) == 0
  {
    var stats := if Present(data.player) && Truthy(data.fixtureId) then [MatchStats(data.fixtureId)] else [];
    var image := GoalImages(c, data);
    GoalCallList(c, data);
    CountShort(stats, image, k);
    CountShort(stats, image, StatsKind);
    CountShort(stats, image, GoalKind);
  }

  /** The count of a kind in at most two calls. */
  lemma {:induction false} CountShort(a: seq<Call>, b: seq<Call>, k: Kind)
    requires |a| <= 1 && |b| <= 1
    ensures Count(a + b, k) ==
            (if |a| == 1 && KindOf(a[0]) == k then 1 else 0) + (if |b| == 1 && KindOf(b[0]) == k then 1 else 0)
  {
    CountAppend(a, b, k);
    if |a| == 1 {
      assert a == [a[0]];
      CountOne(a[0], k);
    }
    if |b| == 1 {
      assert b == [b[0]];
      CountOne(b[0], k);
    }
  }

  /** The goal image the handler asks for, when it is due. */
  function GoalImages(c: Catalog, data: EventData): (r: seq<Call>)
    ensures |r| == (if GoalImageDue(c, data) then 1 else 0)
    ensures r != [] ==> r[0].GoalImage?
  {
    if GoalImageDue(c, data)
    then [GoalImage(Get(data.player.value, "name"), Get(data.player.value, "photo"), Get(data.team.value, "goal_template"))]
    else []
  }

  /** The calls of the goal handler: the stats fetch, then the image when it is due. */
  lemma {:induction false} GoalCallList(c: Catalog, data: EventData)
    ensures GoalRun(c, data).calls ==
            (if Present(data.player) && Truthy(data.fixtureId) then [MatchStats(data.fixtureId)] else []) + GoalImages(c, data)
  {
    AppendEmpty(GoalRun(c, data).calls);
  }

  /** The goal handler raises exactly when the stats it fetched cannot be read or the event has
      no team. */
  lemma {:induction false} GoalRaises(c: Catalog, data: EventData)
    ensures GoalRun(c, data).out.Raise? <==>
            Present(data.player) && Truthy(data.fixtureId) && Truthy(c.matchStats(data.fixtureId)) &&
            (!ScoresReadable(c.matchStats(data.fixtureId)) || data.team.None?)
  {
  }

  lemma {:induction false} CountOne(call: Call, k: Kind)
    ensures Count([call], k) == (if KindOf(call) == k then 1 else 0)
  {
    assert [call][1..] == [];
  }

  /** A goal by a known player in a fixture with match stats raises when the event has no team. */
  lemma {:induction false} GoalWithoutTeamRaises(s: Setup, e: Fields, fixture: Value, feed: Value)
    requires HandlesGoal(EnrichedData(s, e, fixture, feed))
    requires Present(EnrichedData(s, e, fixture, feed).player) && Truthy(fixture) && Truthy(s.catalog.matchStats(fixture))
    requires s.catalog.teams(Get(e, "contestantId")).None?
    ensures SingleEventRun(s, Obj(e), fixture, feed).out == Raise(AttributeError)
  {
  }

  // ---------------------------------------------------------------------------------------------
  // Counting the calls of one event

  lemma {:induction false} Count3(a: seq<Call>, b: seq<Call>, c: seq<Call>, k: Kind)
    ensures Count(a + b + c, k) == Count(a, k) + Count(b, k) + Count(c, k)
  {
    CountAppend(a, b, k);
    CountAppend(a + b, c, k);
  }

  /** The three reference lookups of an event. */
  lemma {:induction false} LookupCalls(e: Fields, k: Kind)
    ensures Count(Lookups(e), k) == (if k == LookupKind then 3 else 0)
  {
    var l := Lookups(e);
    assert l[1..][1..][1..] == [];
    assert Count(l[1..][1..], k) == (if k == LookupKind then 1 else 0);
    assert Count(l[1..], k) == (if k == LookupKind then 2 else 0);
  }

  /** After the goal: the qualifiers' calls, then the row under the sheet flag, then one delay. */
  lemma {:induction false} RecordCalls(s: Setup, e: Fields, data: EventData, k: Kind)
    requires k != CardKind && k != LookupKind
    ensures RecordRun(s, e, data).out.Ok? ==>
              Count(RecordRun(s, e, data).calls, k) ==
              (if k == DelayKind then 1 else if k == RowKind && FeatureFlags.SaveToGsheet(s.env) then 1 else 0)
    ensures RecordRun(s, e, data).out.Raise? ==> Count(RecordRun(s, e, data).calls, k) == 0
    ensures RecordRun(s, e, data).out.Ok? ==> RecordRun(s, e, data).out.value == Some(data)
  {
    var quals := ProcessQualifiersRun(s, GetOr(e, "qualifier", Arr([])), data);
    ProcessQualifiersCallKinds(s, GetOr(e, "qualifier", Arr([])), data, k);
    if quals.out.Ok? {
      var row := Row(data, s.catalog.eventTypes(data.typeId), quals.out.value);
      var sink := if FeatureFlags.SaveToGsheet(s.env) then [AppendRow(row, GameEventsTab)] else [];
      assert RecordRun(s, e, data) == Run(Ok(Some(data)), quals.calls + sink + [Delay]);
      SinkCount(row, FeatureFlags.SaveToGsheet(s.env), k);
      Count3(quals.calls, sink, [Delay], k);
    } else {
      assert RecordRun(s, e, data) == Run(Raise(quals.out.exc), quals.calls);
    }
  }

  lemma {:induction false} SinkCount(row: seq<Value>, on: bool, k: Kind)
    ensures Count(if on then [AppendRow(row, GameEventsTab)] else [], k) == (if on && k == RowKind then 1 else 0)
    ensures Count([Delay], k) == (if k == DelayKind then 1 else 0)
  {
    assert [Delay][1..] == [];
    assert [AppendRow(row, GameEventsTab)][1..] == [];
  }

  /** One entry: no save; a processed event makes exactly one delay and one row under the
      sheet flag; an entry that is skipped or raises makes neither. */
  lemma {:induction false} SingleEventCalls(s: Setup, e: Value, fixture: Value, feed: Value)
    ensures Count(SingleEventRun(s, e, fixture, feed).calls, SaveKind) == 0
    ensures Count(SingleEventRun(s, e, fixture, feed).calls, DelayKind) ==
            (if SingleEventRun(s, e, fixture, feed).out == Ok(None) || SingleEventRun(s, e, fixture, feed).out.Raise? then 0 else 1)
    ensures Count(SingleEventRun(s, e, fixture, feed).calls, RowKind) ==
            (if SingleEventRun(s, e, fixture, feed).out.Ok? && SingleEventRun(s, e, fixture, feed).out.value.Some? &&
                FeatureFlags.SaveToGsheet(s.env) then 1 else 0)
    ensures SingleEventRun(s, e, fixture, feed).out.Ok? ==> (SingleEventRun(s, e, fixture, feed).out.value.Some? <==> e.Obj?)
    ensures e.Obj? && SingleEventRun(s, e, fixture, feed).out.Ok? ==>
            SingleEventRun(s, e, fixture, feed).out.value == Some(EnrichedData(s, e.fields, fixture, feed))
  {
    if e.Obj? {
      var data := EnrichedData(s, e.fields, fixture, feed);
      var goal := if HandlesGoal(data) then GoalRun(s.catalog, data) else Run(Ok(()), []);
      ForKinds(s, e.fields, data, goal);
    }
  }

  lemma {:induction false} ForKinds(s: Setup, e: Fields, data: EventData, goal: Run<()>)
    requires goal == if HandlesGoal(data) then GoalRun(s.catalog, data) else Run(Ok(()), [])
    ensures forall k :: k in {SaveKind, DelayKind, RowKind} ==> Count(Lookups(e) + goal.calls, k) == 0
    ensures forall k :: k in {SaveKind, DelayKind, RowKind} ==>
              RecordRun(s, e, data).out.Ok? ==>
                Count(Lookups(e) + goal.calls + RecordRun(s, e, data).calls, k) ==
                (if k == DelayKind then 1 else if k == RowKind && FeatureFlags.SaveToGsheet(s.env) then 1 else 0)
    ensures forall k :: k in {SaveKind, DelayKind, RowKind} ==>
              RecordRun(s, e, data).out.Raise? ==> Count(Lookups(e) + goal.calls + RecordRun(s, e, data).calls, k) == 0
    ensures RecordRun(s, e, data).out.Ok? ==> RecordRun(s, e, data).out.value == Some(data)
  {
    forall k | k in {SaveKind, DelayKind, RowKind}
      ensures Count(Lookups(e) + goal.calls, k) == 0
      ensures RecordRun(s, e, data).out.Ok? ==>
                Count(Lookups(e) + goal.calls + RecordRun(s, e, data).calls, k) ==
                (if k == DelayKind then 1 else if k == RowKind && FeatureFlags.SaveToGsheet(s.env) then 1 else 0)
      ensures RecordRun(s, e, data).out.Raise? ==> Count(Lookups(e) + goal.calls + RecordRun(s, e, data).calls, k) == 0
    {
      LookupCalls(e, k);
      GoalCalls(s.catalog, data, k);
      RecordCalls(s, e, data, k);
      Count3(Lookups(e), goal.calls, RecordRun(s, e, data).calls, k);
      CountAppend(Lookups(e), goal.calls, k);
    }
    RecordCalls(s, e, data, SaveKind);
  }

  // ---------------------------------------------------------------------------------------------
  // The events of a message

  /** The details a list of entries yields when nothing raises: the enrichment of each non-empty
      dict entry, in input order. */
  function DictDetails(s: Setup, entries: seq<Value>, fixture: Value, feed: Value): (d: seq<EventData>)
    ensures |d| <= |entries|
    decreases |entries|
  {
    if |entries| == 0 then [] else Detail(s, entries[0], fixture, feed) + DictDetails(s, entries[1..], fixture, feed)
  }

  /** What one entry contributes to the details. */
  function Detail(s: Setup, e: Value, fixture: Value, feed: Value): (d: seq<EventData>)
    ensures |d| <= 1
  {
    if e.Obj? && |e.fields| > 0 then [EnrichedData(s, e.fields, fixture, feed)] else []
  }

  /** A truthy entry that does not raise contributes its detail; a falsy one contributes nothing. */
  lemma {:induction false} EntryYield(s: Setup, e: Value, fixture: Value, feed: Value)
    ensures Truthy(e) && SingleEventRun(s, e, fixture, feed).out.Ok? ==>
              OptionSeq(SingleEventRun(s, e, fixture, feed).out.value) == Detail(s, e, fixture, feed)
    ensures !Truthy(e) ==> Detail(s, e, fixture, feed) == []
  {
    if !e.Obj? || |e.fields| == 0 {
      assert Detail(s, e, fixture, feed) == [];
    }
    SingleEventValue(s, e, fixture, feed);
  }

  /** An entry that does not raise yields its enrichment when it is a dict, and nothing otherwise. */
  lemma {:induction false} SingleEventValue(s: Setup, e: Value, fixture: Value, feed: Value)
    ensures SingleEventRun(s, e, fixture, feed).out.Ok? ==>
              SingleEventRun(s, e, fixture, feed).out.value == (if e.Obj? then Some(EnrichedData(s, e.fields, fixture, feed)) else None)
  {
  }

  /** The saves, delays and rows of one truthy entry. */
  lemma {:induction false} EntryCounts(s: Setup, e: Value, fixture: Value, feed: Value, k: Kind)
    requires Truthy(e) && k in {SaveKind, DelayKind, RowKind}
    ensures k == SaveKind ==> Count(SingleEventRun(s, e, fixture, feed).calls, k) == 0
    ensures SingleEventRun(s, e, fixture, feed).out.Ok? ==>
              Count(SingleEventRun(s, e, fixture, feed).calls, k) ==
              (if k == DelayKind || (k == RowKind && FeatureFlags.SaveToGsheet(s.env))
               then |Detail(s, e, fixture, feed)| else 0)
  {
    SingleEventCalls(s, e, fixture, feed);
  }

  /** The events loop: no save; when nothing raises the details are the enriched dict entries in
      order, with one delay each and one row each under the sheet flag. */
  lemma {:induction false} EventsCalls(s: Setup, entries: seq<Value>, fixture: Value, feed: Value)
    ensures Count(EventsRun(s, entries, fixture, feed).calls, SaveKind) == 0
    ensures EventsRun(s, entries, fixture, feed).out.Ok? ==>
              EventsRun(s, entries, fixture, feed).out.value == DictDetails(s, entries, fixture, feed)
    ensures EventsRun(s, entries, fixture, feed).out.Ok? ==>
              Count(EventsRun(s, entries, fixture, feed).calls, DelayKind) == |DictDetails(s, entries, fixture, feed)|
    ensures EventsRun(s, entries, fixture, feed).out.Ok? ==>
              Count(EventsRun(s, entries, fixture, feed).calls, RowKind) ==
              (if FeatureFlags.SaveToGsheet(s.env) then |DictDetails(s, entries, fixture, feed)| else 0)
  {
    EventsDetails(s, entries, fixture, feed);
    EventsCounts(s, entries, fixture, feed, SaveKind);
    EventsCounts(s, entries, fixture, feed, DelayKind);
    EventsCounts(s, entries, fixture, feed, RowKind);
  }

  lemma {:induction false} EventsDetails(s: Setup, entries: seq<Value>, fixture: Value, feed: Value)
    ensures EventsRun(s, entries, fixture, feed).out.Ok? ==>
              EventsRun(s, entries, fixture, feed).out.value == DictDetails(s, entries, fixture, feed)
    decreases |entries|
  {
    if |entries| > 0 {
      var rest := EventsRun(s, entries[1..], fixture, feed);
      EventsDetails(s, entries[1..], fixture, feed);
      EntryYield(s, entries[0], fixture, feed);
      if Truthy(entries[0]) {
        var one := SingleEventRun(s, entries[0], fixture, feed);
        if one.out.Ok? {
          assert EventsRun(s, entries, fixture, feed) == Prepend(OptionSeq(one.out.value), one.calls, rest);
        }
      } else {
        assert EventsRun(s, entries, fixture, feed) == rest;
      }
    }
  }

  /** How many saves, delays and rows the events loop makes. */
  lemma {:induction false} EventsCounts(s: Setup, entries: seq<Value>, fixture: Value, feed: Value, k: Kind)
    requires k in {SaveKind, DelayKind, RowKind}
    ensures k == SaveKind ==> Count(EventsRun(s, entries, fixture, feed).calls, k) == 0
    ensures EventsRun(s, entries, fixture, feed).out.Ok? ==>
              Count(EventsRun(s, entries, fixture, feed).calls, k) ==
              (if k == DelayKind || (k == RowKind && FeatureFlags.SaveToGsheet(s.env))
               then |DictDetails(s, entries, fixture, feed)| else 0)
    decreases |entries|
  {
    if |entries| > 0 {
      var rest := EventsRun(s, entries[1..], fixture, feed);
      var first, others := Detail(s, entries[0], fixture, feed), DictDetails(s, entries[1..], fixture, feed);
      assert |DictDetails(s, entries, fixture, feed)| == |first| + |others|;
      EventsCounts(s, entries[1..], fixture, feed, k);
      EntryYield(s, entries[0], fixture, feed);
      if Truthy(entries[0]) {
        var one := SingleEventRun(s, entries[0], fixture, feed);
        EntryCounts(s, entries[0], fixture, feed, k);
        CountAppend(one.calls, rest.calls, k);
        if one.out.Ok? {
          assert EventsRun(s, entries, fixture, feed) == Prepend(OptionSeq(one.out.value), one.calls, rest);
          if rest.out.Ok? {
            CountsJoin(one.calls, rest.calls, k, |first|, |others|,
                       k == DelayKind || (k == RowKind && FeatureFlags.SaveToGsheet(s.env)));
          }
        } else {
          assert EventsRun(s, entries, fixture, feed) == Run(Raise(one.out.exc), one.calls);
        }
      } else {
        assert EventsRun(s, entries, fixture, feed) == rest;
      }
    }
  }

  lemma {:induction false} CountsJoin(a: seq<Call>, b: seq<Call>, k: Kind, na: nat, nb: nat, on: bool)
    requires Count(a, k) == (if on then na else 0) && Count(b, k) == (if on then nb else 0)
    ensures Count(a + b, k) == (if on then na + nb else 0)
  {
    CountAppend(a, b, k);
  }

  // ---------------------------------------------------------------------------------------------
  // Whole messages

  /** A falsy message, or one whose `matchDetails` is missing or empty, is answered with the error
      status and causes no call at all. */
  lemma {:induction false} InvalidMessage(s: Setup, message: Value)
    requires !Truthy(message) || (message.Obj? && !Truthy(Get(message.fields, "matchDetails")))
    ensures ProcessEventRun(s, message) == Run(Ok(Invalid), [])
    ensures Invalid.ToValue() == Obj([("status", Str("error")), ("message", Str("Invalid or empty event data"))])
  {
  }

  /** A message whose `event` is missing or empty is answered with nothing processed, and the
      livescore save does not happen. */
  lemma {:induction false} NoEvents(s: Setup, message: Value)
    requires WellFormed(message) && !Truthy(Get(MatchDetails(message), "event"))
    ensures ProcessEventRun(s, message) == Run(Ok(Processed([])), [])
  {
  }

  /** The livescore save: exactly one when the message has events, the archive flag is set and the
      feed is the live score feed, and none otherwise; when it happens it is the first call, so it
      precedes every lookup, image, row and delay. */
  lemma {:induction false} SaveGate(s: Setup, message: Value)
    ensures Count(ProcessEventRun(s, message).calls, SaveKind) == (if SavesMessage(s.env, message) then 1 else 0)
    ensures SavesMessage(s.env, message) ==>
              ProcessEventRun(s, message).calls[0] == SaveLivescore(message, Get(MatchDetails(message), "id"))
  {
    if WellFormed(message) && Truthy(Get(MatchDetails(message), "event")) {
      var save, rest := SaveThenEvents(s, message);
      CountOne(SaveLivescore(message, Get(MatchDetails(message), "id")), SaveKind);
      CountAppend(save, rest, SaveKind);
    } else {
      assert !SavesMessage(s.env, message);
      assert ProcessEventRun(s, message).calls == [];
    }
  }

  /** A message with events makes the archive save, if it makes one, before anything else, and
      no other save. */
  lemma {:induction false} SaveThenEvents(s: Setup, message: Value) returns (save: seq<Call>, rest: seq<Call>)
    requires WellFormed(message) && Truthy(Get(MatchDetails(message), "event"))
    ensures ProcessEventRun(s, message).calls == save + rest
    ensures save == if SavesMessage(s.env, message) then [SaveLivescore(message, Get(MatchDetails(message), "id"))] else []
    ensures Count(rest, SaveKind) == 0
  {
    var md := MatchDetails(message);
    var fixture, raw, feed := Get(md, "id"), Get(md, "event"), Get(md, "feedName");
    save := if SavesMessage(s.env, message) then [SaveLivescore(message, fixture)] else [];
    assert ProcessEventRun(s, message) == MessageEventsRun(s, message);
    if EventEntries(raw).Ok? {
      var entries := EventEntries(raw).value;
      rest := EventsRun(s, entries, fixture, feed).calls;
      EventsCalls(s, entries, fixture, feed);
    } else {
      rest := [];
      AppendEmpty(save);
    }
  }

  /** A processed message: the details are the enriched dict entries, in order (a single dict
      event counting as a list of one), with one delay each and one row each under the sheet
      flag; the answer reports `processed` as the number of details. */
  lemma {:induction false} ProcessedMessage(s: Setup, message: Value)
    requires ProcessEventRun(s, message).out.Ok? && ProcessEventRun(s, message).out.value.Processed?
    requires Truthy(Get(MatchDetails(message), "event"))
    ensures EventEntries(Get(MatchDetails(message), "event")).Ok?
    ensures ProcessEventRun(s, message).out.value.details ==
            DictDetails(s, EventEntries(Get(MatchDetails(message), "event")).value,
                        Get(MatchDetails(message), "id"), Get(MatchDetails(message), "feedName"))
    ensures |ProcessEventRun(s, message).out.value.details| <= |EventEntries(Get(MatchDetails(message), "event")).value|
    ensures Count(ProcessEventRun(s, message).calls, DelayKind) == |ProcessEventRun(s, message).out.value.details|
    ensures Count(ProcessEventRun(s, message).calls, RowKind) ==
            (if FeatureFlags.SaveToGsheet(s.env) then |ProcessEventRun(s, message).out.value.details| else 0)
  {
    var md := MatchDetails(message);
    var fixture, feed := Get(md, "id"), Get(md, "feedName");
    var save := ProcessedSplit(s, message);
    var entries := EventEntries(Get(md, "event")).value;
    EventsCalls(s, entries, fixture, feed);
    var events := EventsRun(s, entries, fixture, feed);
    CountAppend(save, events.calls, DelayKind);
    CountAppend(save, events.calls, RowKind);
  }

  /** A processed message with events passed the screen: its calls are at most the archive
      save, then those of its events, and its details are what the events gave. */
  lemma {:induction false} ProcessedSplit(s: Setup, message: Value) returns (save: seq<Call>)
    requires ProcessEventRun(s, message).out.Ok? && ProcessEventRun(s, message).out.value.Processed?
    requires Truthy(Get(MatchDetails(message), "event"))
    ensures EventEntries(Get(MatchDetails(message), "event")).Ok?
    ensures var events := EventsRun(s, EventEntries(Get(MatchDetails(message), "event")).value,
                                    Get(MatchDetails(message), "id"), Get(MatchDetails(message), "feedName"));
            events.out.Ok? &&
            ProcessEventRun(s, message).out.value.details == events.out.value &&
            ProcessEventRun(s, message).calls == save + events.calls
    ensures Count(save, DelayKind) == 0 && Count(save, RowKind) == 0
  {
    ScreenPasses(s, message);
    save := MessageEventsSplit(s, message);
  }

  lemma {:induction false} MessageEventsSplit(s: Setup, message: Value) returns (save: seq<Call>)
    requires WellFormed(message) && Truthy(Get(MatchDetails(message), "event"))
    requires MessageEventsRun(s, message).out.Ok?
    ensures EventEntries(Get(MatchDetails(message), "event")).Ok?
    ensures var events := EventsRun(s, EventEntries(Get(MatchDetails(message), "event")).value,
                                    Get(MatchDetails(message), "id"), Get(MatchDetails(message), "feedName"));
            events.out.Ok? &&
            MessageEventsRun(s, message).out == Ok(Processed(events.out.value)) &&
            MessageEventsRun(s, message).calls == save + events.calls
    ensures Count(save, DelayKind) == 0 && Count(save, RowKind) == 0
  {
    var md := MatchDetails(message);
    var call := SaveLivescore(message, Get(md, "id"));
    save := if SavesMessage(s.env, message) then [call] else [];
    CountOne(call, DelayKind);
    CountOne(call, RowKind);
  }

  lemma {:induction false} ScreenPasses(s: Setup, message: Value)
    requires ProcessEventRun(s, message).out.Ok? && ProcessEventRun(s, message).out.value.Processed?
    requires Truthy(Get(MatchDetails(message), "event"))
    ensures WellFormed(message) && ProcessEventRun(s, message) == MessageEventsRun(s, message)
  {
  }

  /** The answer carries `processed == len(details)`. */
  lemma {:induction false} ProcessedCount(d: seq<EventData>)
    ensures Get(Processed(d).ToValue().fields, "status") == Str("ok")
    ensures Get(Processed(d).ToValue().fields, "processed") == Int(|d|)
    ensures Get(Processed(d).ToValue().fields, "details").Arr?
    ensures |Get(Processed(d).ToValue().fields, "details").items| == |d|
  {
    var f := Processed(d).ToValue().fields;
    GetAt(f, 0, "status");
    GetAt(f, 1, "processed");
    GetAt(f, 2, "details");
  }

  /** The message the feed sends, with `matchDetails` holding the fixture, the feed and the events. */
  function Message(fixture: Value, feed: Value, events: Value): Value
  {
    Obj([("matchDetails", Obj([("id", fixture), ("feedName", feed), ("event", events)]))])
  }

  lemma {:induction false} MessageFields(fixture: Value, feed: Value, events: Value)
    ensures WellFormed(Message(fixture, feed, events))
    ensures MatchDetails(Message(fixture, feed, events)) == [("id", fixture), ("feedName", feed), ("event", events)]
    ensures Get(MatchDetails(Message(fixture, feed, events)), "id") == fixture
    ensures Get(MatchDetails(Message(fixture, feed, events)), "feedName") == feed
    ensures Get(MatchDetails(Message(fixture, feed, events)), "event") == events
  {
    var md: Fields := [("id", fixture), ("feedName", feed), ("event", events)];
    GetAt(Message(fixture, feed, events).fields, 0, "matchDetails");
    GetAt(md, 0, "id");
    GetAt(md, 1, "feedName");
    GetAt(md, 2, "event");
  }

  /** The calls a message makes before its events: the livescore save when it is due. */
  function SaveCalls(env: FeatureFlags.Env, message: Value): seq<Call>
  {
    if SavesMessage(env, message) then [SaveLivescore(message, Get(MatchDetails(message), "id"))] else []
  }

  /** A message with events that can be iterated: the save, then the events loop. */
  lemma {:induction false} MessageRun(s: Setup, message: Value)
    requires WellFormed(message) && Truthy(Get(MatchDetails(message), "event"))
    requires EventEntries(Get(MatchDetails(message), "event")).Ok?
    ensures var md := MatchDetails(message);
            var r := EventsRun(s, EventEntries(Get(md, "event")).value, Get(md, "id"), Get(md, "feedName"));
            ProcessEventRun(s, message) ==
            Run(if r.out.Raise? then Raise(r.out.exc) else Ok(Processed(r.out.value)), SaveCalls(s.env, message) + r.calls)
  {
  }

  /** A single dict event is processed as a list holding it: the same answer, the same save
      decision, and after the save the same calls. */
  lemma {:induction false} SingleDictIsListOfOne(s: Setup, fixture: Value, feed: Value, e: Fields)
    requires |e| > 0
    ensures ProcessEventRun(s, Message(fixture, feed, Obj(e))).out == ProcessEventRun(s, Message(fixture, feed, Arr([Obj(e)]))).out
    ensures SavesMessage(s.env, Message(fixture, feed, Obj(e))) == SavesMessage(s.env, Message(fixture, feed, Arr([Obj(e)])))
    ensures ProcessEventRun(s, Message(fixture, feed, Obj(e))).calls ==
            SaveCalls(s.env, Message(fixture, feed, Obj(e))) + EventsRun(s, [Obj(e)], fixture, feed).calls
    ensures ProcessEventRun(s, Message(fixture, feed, Arr([Obj(e)]))).calls ==
            SaveCalls(s.env, Message(fixture, feed, Arr([Obj(e)]))) + EventsRun(s, [Obj(e)], fixture, feed).calls
  {
    assert EventEntries(Obj(e)) == Ok([Obj(e)]);
    assert EventEntries(Arr([Obj(e)])) == Ok([Obj(e)]);
    MessageWith(s, fixture, feed, Obj(e));
    MessageWith(s, fixture, feed, Arr([Obj(e)]));
  }

  lemma {:induction false} MessageWith(s: Setup, fixture: Value, feed: Value, events: Value)
    requires Truthy(events) && EventEntries(events).Ok?
    ensures var r := EventsRun(s, EventEntries(events).value, fixture, feed);
            ProcessEventRun(s, Message(fixture, feed, events)) ==
            Run(if r.out.Raise? then Raise(r.out.exc) else Ok(Processed(r.out.value)),
                SaveCalls(s.env, Message(fixture, feed, events)) + r.calls)
    ensures SavesMessage(s.env, Message(fixture, feed, events)) ==
            (FeatureFlags.SaveLivescoreEvents(s.env) && IsLivescore(feed))
  {
    MessageFields(fixture, feed, events);
    MessageRun(s, Message(fixture, feed, events));
  }

  // ---------------------------------------------------------------------------------------------
  // Rows

  /** The row's 13 columns, read off the event: its timestamp, the player, team and event-type
      names ("Unknown" when a lookup misses), the summary, its id, the fixture, the feed, its period,
      minute and second, and its position. */
  lemma {:induction false} RowColumns(s: Setup, e: Fields, fixture: Value, feed: Value, summary: string, row: seq<Value>)
    requires row == Row(EnrichedData(s, e, fixture, feed), s.catalog.eventTypes(Get(e, "typeId")), summary)
    ensures |row| == 13
    ensures row[0] == Get(e, "timeStamp")
    ensures row[1] == NameOr(s.catalog.players(Get(e, "playerId")))
    ensures row[2] == NameOr(s.catalog.teams(Get(e, "contestantId")))
    ensures row[3] == NameOr(s.catalog.eventTypes(Get(e, "typeId")))
    ensures row[4] == Str(summary) && row[5] == Get(e, "id") && row[6] == fixture && row[7] == feed
    ensures row[8] == Get(e, "periodId") && row[9] == Get(e, "timeMin") && row[10] == Get(e, "timeSec")
    ensures row[11] == Get(e, "x") && row[12] == Get(e, "y")
  {
    var data := EnrichedData(s, e, fixture, feed);
    EnrichedFields(s, e, fixture, feed);
    RowOf(data, s.catalog.eventTypes(Get(e, "typeId")), summary, row);
  }

  lemma {:induction false} RowOf(data: EventData, eventType: Option<Fields>, summary: string, row: seq<Value>)
    requires row == Row(data, eventType, summary)
    ensures |row| == 13
    ensures row[0] == data.meta.timeStamp && row[1] == NameOr(data.player) && row[2] == NameOr(data.team)
    ensures row[3] == NameOr(eventType) && row[4] == Str(summary) && row[5] == data.optaId && row[6] == data.fixtureId
    ensures row[7] == data.feedName && row[8] == data.meta.period && row[9] == data.meta.timeMin
    ensures row[10] == data.meta.timeSec && row[11] == data.meta.x && row[12] == data.meta.y
  {
  }

  lemma {:induction false} EnrichedFields(s: Setup, e: Fields, fixture: Value, feed: Value)
    ensures EnrichedData(s, e, fixture, feed).meta == ExtractEventMetadata(e)
    ensures EnrichedData(s, e, fixture, feed).player == s.catalog.players(Get(e, "playerId"))
    ensures EnrichedData(s, e, fixture, feed).team == s.catalog.teams(Get(e, "contestantId"))
    ensures EnrichedData(s, e, fixture, feed).optaId == Get(e, "id")
    ensures EnrichedData(s, e, fixture, feed).typeId == Get(e, "typeId")
    ensures EnrichedData(s, e, fixture, feed).contestantId == Get(e, "contestantId")
    ensures EnrichedData(s, e, fixture, feed).fixtureId == fixture && EnrichedData(s, e, fixture, feed).feedName == feed
  {
  }

  /** "Unknown" stands in for a lookup that misses or finds an empty record. */
  lemma {:induction false} NameFallback(o: Option<Fields>)
    ensures NameOr(o) == (if o.Some? && o.value != [] then Get(o.value, "name") else Str("Unknown"))
  {
  }

  /** With the sheet flag set, a processed event's last two calls are its row, on the "game events"
      tab, and the delay; without it, the delay alone closes the event. */
  lemma {:induction false} RowThenDelay(s: Setup, e: Fields, fixture: Value, feed: Value)
    requires SingleEventRun(s, Obj(e), fixture, feed).out.Ok?
    ensures var calls := SingleEventRun(s, Obj(e), fixture, feed).calls;
            |calls| >= 1 && calls[|calls| - 1] == Delay &&
            (FeatureFlags.SaveToGsheet(s.env) ==>
              |calls| >= 2 &&
              calls[|calls| - 2] ==
              AppendRow(Row(EnrichedData(s, e, fixture, feed), s.catalog.eventTypes(Get(e, "typeId")),
                            ProcessQualifiersRun(s, GetOr(e, "qualifier", Arr([])), EnrichedData(s, e, fixture, feed)).out.value),
                        "game events"))
  {
    var before := SingleEventPrefix(s, e, fixture, feed);
    var row := RecordEnds(s, e, fixture, feed);
    LastTwo(SingleEventRun(s, Obj(e), fixture, feed).calls, before,
            RecordRun(s, e, EnrichedData(s, e, fixture, feed)).calls, row, FeatureFlags.SaveToGsheet(s.env));
  }

  /** A processed event's calls are its lookups and goal calls, then those of the record step. */
  lemma {:induction false} SingleEventPrefix(s: Setup, e: Fields, fixture: Value, feed: Value) returns (before: seq<Call>)
    requires SingleEventRun(s, Obj(e), fixture, feed).out.Ok?
    ensures RecordRun(s, e, EnrichedData(s, e, fixture, feed)).out.Ok?
    ensures SingleEventRun(s, Obj(e), fixture, feed).calls == before + RecordRun(s, e, EnrichedData(s, e, fixture, feed)).calls
  {
    var data := EnrichedData(s, e, fixture, feed);
    var goal := if HandlesGoal(data) then GoalRun(s.catalog, data) else Run(Ok(()), []);
    before := Lookups(e) + goal.calls;
  }

  lemma {:induction false} RecordEnds(s: Setup, e: Fields, fixture: Value, feed: Value) returns (row: Call)
    requires RecordRun(s, e, EnrichedData(s, e, fixture, feed)).out.Ok?
    ensures ProcessQualifiersRun(s, GetOr(e, "qualifier", Arr([])), EnrichedData(s, e, fixture, feed)).out.Ok?
    ensures row == AppendRow(Row(EnrichedData(s, e, fixture, feed), s.catalog.eventTypes(Get(e, "typeId")),
                                 ProcessQualifiersRun(s, GetOr(e, "qualifier", Arr([])), EnrichedData(s, e, fixture, feed)).out.value),
                             "game events")
    ensures var calls := RecordRun(s, e, EnrichedData(s, e, fixture, feed)).calls;
            |calls| >= 1 && calls[|calls| - 1] == Delay &&
            (FeatureFlags.SaveToGsheet(s.env) ==> |calls| >= 2 && calls[|calls| - 2] == row)
  {
    var data := EnrichedData(s, e, fixture, feed);
    var quals := ProcessQualifiersRun(s, GetOr(e, "qualifier", Arr([])), data);
    row := AppendRow(Row(data, s.catalog.eventTypes(data.typeId), quals.out.value), GameEventsTab);
    var sink := if FeatureFlags.SaveToGsheet(s.env) then [row] else [];
    EndsWithDelay(quals.calls, sink);
  }

  lemma {:induction false} EndsWithDelay(before: seq<Call>, sink: seq<Call>)
    ensures var c := before + sink + [Delay];
            |c| >= 1 && c[|c| - 1] == Delay && (|sink| == 1 ==> |c| >= 2 && c[|c| - 2] == sink[0])
  {
  }

  /** A log that ends with another ends with its last two calls. */
  lemma {:induction false} LastTwo(calls: seq<Call>, before: seq<Call>, rest: seq<Call>, row: Call, flag: bool)
    requires calls == before + rest
    requires |rest| >= 1 && rest[|rest| - 1] == Delay && (flag ==> |rest| >= 2 && rest[|rest| - 2] == row)
    ensures |calls| >= 1 && calls[|calls| - 1] == Delay && (flag ==> |calls| >= 2 && calls[|calls| - 2] == row)
  {
  }

  /** A lookup miss does not abort an event: when the player is unknown (or the event is not a
      goal) and every qualifier is a dict with a hashable id, the event is processed. */
  lemma {:induction false} MissesDoNotAbort(s: Setup, e: Fields, fixture: Value, feed: Value, qs: seq<Fields>)
    requires GetOr(e, "qualifier", Arr([])) == Arr(seq(|qs|, k requires 0 <= k < |qs| => Obj(qs[k])))
    requires HashableIds(qs)
    requires !Present(s.catalog.players(Get(e, "playerId"))) || !HandlesGoal(EnrichedData(s, e, fixture, feed))
    ensures SingleEventRun(s, Obj(e), fixture, feed).out == Ok(Some(EnrichedData(s, e, fixture, feed)))
  {
    var data := EnrichedData(s, e, fixture, feed);
    QualifierSummary(s, qs, data);
  }

  // ---------------------------------------------------------------------------------------------
  // The archive

  /** The file of the day for the fixture ends with the message after what it held as a list;
      a missing, undecodable or non-list file starts again from the message alone; every other
      file is left as it was. */
  lemma {:induction false} ArchiveFile(files: map<string, Stored>, message: Value, fixture: Value, date: string, name: string)
    ensures var after := Archived(files, message, fixture, date);
            var mine := LivescoreFilename(fixture, date);
            after.Keys == files.Keys + {mine} &&
            (name != mine && name in files ==> after[name] == files[name]) &&
            (mine in files && files[mine].Doc? && files[mine].doc.Arr? ==>
               after[mine] == Doc(Arr(files[mine].doc.items + [message]))) &&
            (mine !in files || files[mine] == Undecodable || !files[mine].doc.Arr? ==>
               after[mine] == Doc(Arr([message])))
  {
    assert [] + [message] == [message];
  }

  /** Two saves for the same fixture and day keep both messages, in order. */
  lemma {:induction false} ArchiveTwice(files: map<string, Stored>, m1: Value, m2: Value, fixture: Value, date: string)
    ensures Archived(Archived(files, m1, fixture, date), m2, fixture, date)[LivescoreFilename(fixture, date)] ==
            Doc(Arr(PriorEvents(if LivescoreFilename(fixture, date) in files then Some(files[LivescoreFilename(fixture, date)]) else None) + [m1, m2]))
  {
    var name := LivescoreFilename(fixture, date);
    var prior := PriorEvents(if name in files then Some(files[name]) else None);
    assert prior + [m1] + [m2] == prior + [m1, m2];
  }
}
