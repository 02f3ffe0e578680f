/** The match-event enrichment pipeline (celery_worker/match_event_service.py). A feed message
    carries `matchDetails` with a fixture `id`, a `feedName` and `event`, one event or a list of
    them. Every event is enriched through reference lookups, summarised (qualifiers, card and goal
    media) and written out as a 13-column row.

    Everything the service does to the world is appended to a call log: reference lookups, media
    generation, the match-stats fetch, sheet rows and the rate-limit delay. The pure `...Run`
    functions say which result and which calls one step yields; the methods of
    `MatchEventService` are proved to do exactly that. */
module MatchEvents {
  import opened Python
  import opened Text
  import FeatureFlags
  import Directus

  const YellowCardQualifierId: int := 31
  const RedCardQualifierId: int := 33
  const CardEventTypeId: int := 17
  const GoalEventTypeId: int := 16
  const LivescoreFeedName: string := "liveScore"
  const GameEventsTab: string := "game events"

  /** The entries of `handler_map`: both card qualifiers go to `_handle_cards`. */
  datatype Handler = HandleCards

  const DefaultHandlers: map<int, Handler> := map[YellowCardQualifierId := HandleCards, RedCardQualifierId := HandleCards]

  /** The reference data and the outside services, as functions of their arguments. */
  datatype Catalog = Catalog(
    eventTypes: Value -> Option<Fields>,   // `get_event_type_by_opta_id`
    teams: Value -> Option<Fields>,        // `get_team_by_opta_id`
    players: Value -> Option<Fields>,      // `get_player_by_opta_id`
    qualifiers: Value -> Option<Fields>,   // `get_event_qualifier_by_opta_id`, see `Directus.QualifierLookup`
    matchStats: Value -> Value)            // `PerformFeedsService.get_match_stats`

  /** What the service is configured with: the environment its flags read, its handler map and
      its collaborators. */
  datatype Setup = Setup(env: FeatureFlags.Env, handlers: map<int, Handler>, catalog: Catalog)

  /** One thing the service does to the world, in the order it does it. */
  datatype Call =
    | SaveLivescore(message: Value, fixtureId: Value)
    | LookupEventType(typeId: Value)
    | LookupTeam(contestantId: Value)
    | LookupPlayer(playerId: Value)
    | LookupQualifier(qualifierId: Value)
    | CardImage(color: string, photo: Value, name: Value)
    | MatchStats(fixture: Value)
    | GoalImage(name: Value, photo: Value, goalTemplate: Value)
    | AppendRow(row: seq<Value>, tab: string)
    | Delay

  /** The result of one step and the calls it made, also when it raised half-way. */
  datatype Run<T> = Run(out: Result<T>, calls: seq<Call>)

  /** The integer a value equals under `==` (and so the `int` key `dict.get` finds it under):
      an int, a bool, or a float with an integral value; strings, `None` and containers equal
      no integer. */
  function IntKey(v: Value): Option<int>
  {
    match v
    case Int(i) => Some(i)
    case Bool(b) => Some(if b then 1 else 0)
    case Float(r) => IntegralFloat(r)
    case _ => None
  }

  /** An id equals `n` when it is the int `n`, the float `n` (as in `16.0 == 16`), or, for 0 and
      1, the matching bool. */
  lemma {:induction false} IdsCompareAsNumbers(n: int)
    ensures IsId(Int(n), n) && IsId(Float(IntToString(n) + ".0"), n)
    ensures IsId(Bool(true), 1) && IsId(Bool(false), 0) && IsId(Float("-0.0"), 0)
    ensures !IsId(Str(IntToString(n)), n) && !IsId(Null, n) && !IsId(Float(IntToString(n) + ".5"), n)
  {
    IntegralFloatOf(n);
    var r := IntToString(n) + ".5";
    assert r[|r| - 2..] == ".5";
    assert DigitsValue("0") == Some(0);
    assert "-0.0"[..2][1..] == "0";
  }

  predicate IsId(v: Value, n: int)
  {
    IntKey(v) == Some(n)
  }

  predicate IsLivescore(feed: Value)
  {
    feed == Str(LivescoreFeedName)
  }

  /** `handler_map.get(qualifier_id)`: the handler under the integer the id equals; a list or
      dict id is unhashable and raises `TypeError`. */
  function HandlerFor(handlers: map<int, Handler>, id: Value): (r: Result<Option<Handler>>)
    ensures r.Raise? <==> !Hashable(id)
    ensures r.Raise? ==> r.exc == TypeError
    ensures r.Ok? && r.value.Some? ==> exists n :: n in handlers && IsId(id, n) && r.value.value == handlers[n]
    ensures r.Ok? && r.value.None? ==> forall n :: n in handlers ==> !IsId(id, n)
  {
    var k := IntKey(id);
    if !Hashable(id) then Raise(TypeError)
    else if k.Some? && k.value in handlers then Ok(Some(handlers[k.value])) else Ok(None)
  }

  /** A lookup result that is truthy: a non-empty record. */
  predicate Present(o: Option<Fields>)
  {
    o.Some? && |o.value| > 0
  }

  /** A record as the value the program holds: the dict, or `None`. */
  function Record(o: Option<Fields>): Value
  {
    if o.Some? then Obj(o.value) else Null
  }

  /** `_extract_event_metadata`: the timing and pitch position of an event. */
  datatype EventMetadata = EventMetadata(
    currentTime: Value, x: Value, y: Value, period: Value, timeMin: Value, timeSec: Value, timeStamp: Value)

  function ExtractEventMetadata(e: Fields): (m: EventMetadata)
    ensures m.currentTime == m.timeStamp == Get(e, "timeStamp")
    ensures m.period == Get(e, "periodId") && m.timeMin == Get(e, "timeMin") && m.timeSec == Get(e, "timeSec")
    ensures m.x == Get(e, "x") && m.y == Get(e, "y")
  {
    EventMetadata(Get(e, "timeStamp"), Get(e, "x"), Get(e, "y"), Get(e, "periodId"),
                  Get(e, "timeMin"), Get(e, "timeSec"), Get(e, "timeStamp"))
  }

  /** Each of the seven metadata fields is `None` when the event lacks its key, and otherwise
      the value of an entry of the event holding that key. */
  lemma {:induction false} MetadataFromEntries(e: Fields)
    ensures var m := ExtractEventMetadata(e);
            (!HasKey(e, "timeStamp") ==> m.timeStamp == Null && m.currentTime == Null) &&
            (HasKey(e, "timeStamp") ==> exists k :: 0 <= k < |e| && e[k] == ("timeStamp", m.timeStamp)) &&
            (!HasKey(e, "x") ==> m.x == Null) &&
            (HasKey(e, "x") ==> exists k :: 0 <= k < |e| && e[k] == ("x", m.x)) &&
            (!HasKey(e, "y") ==> m.y == Null) &&
            (HasKey(e, "y") ==> exists k :: 0 <= k < |e| && e[k] == ("y", m.y)) &&
            (!HasKey(e, "periodId") ==> m.period == Null) &&
            (HasKey(e, "periodId") ==> exists k :: 0 <= k < |e| && e[k] == ("periodId", m.period)) &&
            (!HasKey(e, "timeMin") ==> m.timeMin == Null) &&
            (HasKey(e, "timeMin") ==> exists k :: 0 <= k < |e| && e[k] == ("timeMin", m.timeMin)) &&
            (!HasKey(e, "timeSec") ==> m.timeSec == Null) &&
            (HasKey(e, "timeSec") ==> exists k :: 0 <= k < |e| && e[k] == ("timeSec", m.timeSec))
  {
    GetOrFound(e, "timeStamp", Null);
    GetOrFound(e, "x", Null);
    GetOrFound(e, "y", Null);
    GetOrFound(e, "periodId", Null);
    GetOrFound(e, "timeMin", Null);
    GetOrFound(e, "timeSec", Null);
  }

  /** The enriched event (`event_data`). */
  datatype EventData = EventData(
    team: Option<Fields>, player: Option<Fields>, optaId: Value, typeId: Value, contestantId: Value,
    fixtureId: Value, feedName: Value, meta: EventMetadata)
  {
    /** The dict, in the order its keys are written. */
    function ToValue(): Value
    {
      Obj([("team", Record(team)), ("player", Record(player)), ("opta_id", optaId), ("type_id", typeId),
           ("contestant_id", contestantId), ("fixture_id", fixtureId), ("feed_name", feedName),
           ("current_time", meta.currentTime), ("x", meta.x), ("y", meta.y), ("period", meta.period),
           ("time_min", meta.timeMin), ("time_sec", meta.timeSec), ("time_stamp", meta.timeStamp)])
    }
  }

  /** What `process_event` answers. */
  datatype Response = Invalid | Processed(details: seq<EventData>)
  {
    function ToValue(): Value
    {
      match this
      case Invalid => Obj([("status", Str("error")), ("message", Str("Invalid or empty event data"))])
      case Processed(details) =>
        Obj([("status", Str("ok")), ("processed", Int(|details|)),
             ("details", Arr(seq(|details|, k requires 0 <= k < |details| => details[k].ToValue())))])
    }
  }

  /** Steps that yield a list: the list so far and the calls so far, then the rest. */
  function Prepend<T>(done: seq<T>, doneCalls: seq<Call>, rest: Run<seq<T>>): Run<seq<T>>
  {
    Run(if rest.out.Raise? then rest.out else Ok(done + rest.out.value), doneCalls + rest.calls)
  }

  lemma {:induction false} PrependPrepend<T>(a: seq<T>, ca: seq<Call>, b: seq<T>, cb: seq<Call>, rest: Run<seq<T>>)
    ensures Prepend(a, ca, Prepend(b, cb, rest)) == Prepend(a + b, ca + cb, rest)
  {
    assert ca + (cb + rest.calls) == ca + cb + rest.calls;
    if rest.out.Ok? {
      assert a + (b + rest.out.value) == a + b + rest.out.value;
    }
  }

  lemma {:induction false} PrependNothing<T>(r: Run<seq<T>>)
    ensures Prepend([], [], r) == r
  {
    assert [] + r.calls == r.calls;
    if r.out.Ok? { assert [] + r.out.value == r.out.value; }
  }

  function OptionSeq<T>(o: Option<T>): seq<T>
  {
    if o.Some? then [o.value] else []
  }

  // ---------------------------------------------------------------------------------------------
  // Card and goal handlers

  /** The card colour a qualifier id stands for. */
  function CardColor(id: Value): Option<string>
  {
    if IsId(id, YellowCardQualifierId) then Some("yellow")
    else if IsId(id, RedCardQualifierId) then Some("red")
    else None
  }

  /** `_handle_cards`: a card image for the player, when there is one and the id is a card. */
  function CardCalls(id: Value, value: Value, data: EventData): seq<Call>
  {
    if !Present(data.player) then []
    else match CardColor(id)
      case None => []
      case Some(color) => [CardImage(color, Get(data.player.value, "photo"), Get(data.player.value, "name"))]
  }

  /** `current_data.get("liveData", {}).get("matchDetails", {}).get("scores", {})` does not raise. */
  predicate ScoresReadable(current: Value)
  {
    current.Obj? &&
    var live := GetOr(current.fields, "liveData", Obj([]));
    live.Obj? && GetOr(live.fields, "matchDetails", Obj([])).Obj?
  }

  /** `_handle_goal`: fetches the match stats for a goal by a known player in a known fixture and
      asks for the goal image. A missing team raises, since its template is read without a check. */
  function GoalRun(c: Catalog, data: EventData): Run<()>
  {
    if !Present(data.player) || !Truthy(data.fixtureId) then Run(Ok(()), [])
    else
      var current := c.matchStats(data.fixtureId);
      var fetched := [MatchStats(data.fixtureId)];
      if !Truthy(current) then Run(Ok(()), fetched)
      else if !ScoresReadable(current) || data.team.None? then Run(Raise(AttributeError), fetched)
      else
        var player := data.player.value;
        Run(Ok(()), fetched + [GoalImage(Get(player, "name"), Get(player, "photo"), Get(data.team.value, "goal_template"))])
  }

  // ---------------------------------------------------------------------------------------------
  // Qualifiers

  /** The text a qualifier contributes: its catalogue name, or "Unknown", and its value. */
  function QualifierPart(info: Option<Fields>, value: Value): string
  {
    (if Present(info) then PyStr(Get(info.value, "name")) else "Unknown") + " (" + PyStr(value) + ")"
  }

  /** Whether the card handler runs for a qualifier of an event. */
  predicate DispatchesCard(s: Setup, id: Value, data: EventData)
  {
    HandlerFor(s.handlers, id).Ok? && HandlerFor(s.handlers, id).value.Some? && IsId(data.typeId, CardEventTypeId) && !IsLivescore(data.feedName)
  }

  /** One pass of the loop of `_process_qualifiers`: a qualifier without id is skipped; otherwise
      the handler runs first, then the name is looked up. A qualifier that is not a dict raises,
      and so does the handler lookup of an unhashable id. */
  function QualifierStep(s: Setup, q: Value, data: EventData): Run<Option<string>>
  {
    if !q.Obj? then Run(Raise(AttributeError), [])
    else
      var id := Get(q.fields, "qualifierId");
      var value := Get(q.fields, "value");
      if id == Null then Run(Ok(None), [])
      else if HandlerFor(s.handlers, id).Raise? then Run(Raise(TypeError), [])
      else
        var handled := if DispatchesCard(s, id, data) then CardCalls(id, value, data) else [];
        var info := s.catalog.qualifiers(id);
        Run(Ok(Some(QualifierPart(info, value))), handled + [LookupQualifier(id)])
  }

  /** The loop of `_process_qualifiers` over the qualifiers still to visit. */
  function QualifiersRun(s: Setup, qs: seq<Value>, data: EventData): Run<seq<string>>
    decreases |qs|
  {
    if |qs| == 0 then Run(Ok([]), [])
    else
      var step := QualifierStep(s, qs[0], data);
      if step.out.Raise? then Run(Raise(step.out.exc), step.calls)
      else Prepend(OptionSeq(step.out.value), step.calls, QualifiersRun(s, qs[1..], data))
  }

  lemma {:induction false} QualifiersUnfold(s: Setup, qs: seq<Value>, i: nat, data: EventData)
    requires i < |qs|
    ensures var step := QualifierStep(s, qs[i], data);
            QualifiersRun(s, qs[i..], data) ==
            if step.out.Raise? then Run(Raise(step.out.exc), step.calls)
            else Prepend(OptionSeq(step.out.value), step.calls, QualifiersRun(s, qs[i + 1..], data))
  {
    assert qs[i..][1..] == qs[i + 1..];
  }

  /** The loop of `_process_qualifiers` after `i` qualifiers that gave `parts` and made `done`. */
  predicate QualifiersSoFar(s: Setup, qs: seq<Value>, i: nat, data: EventData, parts: seq<string>, done: seq<Call>)
    requires i <= |qs|
  {
    QualifiersRun(s, qs, data) == Prepend(parts, done, QualifiersRun(s, qs[i..], data))
  }

  /** A qualifier that yields a part (or none) moves the loop on by one. */
  lemma {:induction false} QualifiersAdvance(s: Setup, qs: seq<Value>, i: nat, data: EventData, parts: seq<string>, done: seq<Call>)
    requires i < |qs| && QualifiersSoFar(s, qs, i, data, parts, done)
    requires QualifierStep(s, qs[i], data).out.Ok?
    ensures var step := QualifierStep(s, qs[i], data);
            QualifiersSoFar(s, qs, i + 1, data, parts + OptionSeq(step.out.value), done + step.calls)
  {
    var step := QualifierStep(s, qs[i], data);
    QualifiersUnfold(s, qs, i, data);
    PrependPrepend(parts, done, OptionSeq(step.out.value), step.calls, QualifiersRun(s, qs[i + 1..], data));
  }

  /** A qualifier that raises ends the loop with its exception, after the calls made so far. */
  lemma {:induction false} QualifiersStop(s: Setup, qs: seq<Value>, i: nat, data: EventData, parts: seq<string>, done: seq<Call>)
    requires i < |qs| && QualifiersSoFar(s, qs, i, data, parts, done)
    requires QualifierStep(s, qs[i], data).out.Raise?
    ensures var step := QualifierStep(s, qs[i], data);
            QualifiersRun(s, qs, data) == Run(Raise(step.out.exc), done + step.calls)
  {
    QualifiersUnfold(s, qs, i, data);
  }

  /** Before the loop nothing is done; after it, the parts are the whole result. */
  lemma {:induction false} QualifiersEnds(s: Setup, qs: seq<Value>, data: EventData, parts: seq<string>, done: seq<Call>)
    ensures QualifiersSoFar(s, qs, 0, data, [], [])
    ensures QualifiersSoFar(s, qs, |qs|, data, parts, done) ==> QualifiersRun(s, qs, data) == Run(Ok(parts), done)
  {
    assert qs[0..] == qs;
    PrependNothing(QualifiersRun(s, qs, data));
    assert qs[|qs|..] == [];
    assert parts + [] == parts;
    assert done + [] == done;
  }

  /** `_process_qualifiers`: iterates the qualifiers (a scalar is not iterable) and joins the parts. */
  function ProcessQualifiersRun(s: Setup, qualifiers: Value, data: EventData): Run<string>
  {
    match Iterate(qualifiers)
    case Raise(exc) => Run(Raise(exc), [])
    case Ok(qs) =>
      var r := QualifiersRun(s, qs, data);
      Run(if r.out.Raise? then Raise(r.out.exc) else Ok(Join(r.out.value, ", ")), r.calls)
  }

  // ---------------------------------------------------------------------------------------------
  // Single events

  /** `player.get("name") if player else "Unknown"`. */
  function NameOr(o: Option<Fields>): Value
  {
    if Present(o) then Get(o.value, "name") else Str("Unknown")
  }

  /** The sheet row of an event. */
  function Row(data: EventData, eventType: Option<Fields>, summary: string): seq<Value>
  {
    [data.meta.timeStamp, NameOr(data.player), NameOr(data.team), NameOr(eventType), Str(summary),
     data.optaId, data.fixtureId, data.feedName, data.meta.period, data.meta.timeMin, data.meta.timeSec,
     data.meta.x, data.meta.y]
  }

  function EnrichedData(s: Setup, e: Fields, fixture: Value, feed: Value): EventData
  {
    var typeId := Get(e, "typeId");
    var contestant := Get(e, "contestantId");
    EventData(s.catalog.teams(contestant), s.catalog.players(Get(e, "playerId")), Get(e, "id"), typeId,
              contestant, fixture, feed, ExtractEventMetadata(e))
  }

  function Lookups(e: Fields): seq<Call>
  {
    [LookupEventType(Get(e, "typeId")), LookupTeam(Get(e, "contestantId")), LookupPlayer(Get(e, "playerId"))]
  }

  predicate HandlesGoal(data: EventData)
  {
    IsId(data.typeId, GoalEventTypeId) && !IsLivescore(data.feedName)
  }

  /** `_process_single_event`: a non-dict entry yields `None`; a dict is looked up, its goal
      handled, its qualifiers summarised, its row written when the sheet flag is set, and then the
      service waits. */
  function SingleEventRun(s: Setup, e: Value, fixture: Value, feed: Value): Run<Option<EventData>>
  {
    if !e.Obj? then Run(Ok(None), [])
    else
      var data := EnrichedData(s, e.fields, fixture, feed);
      var goal := if HandlesGoal(data) then GoalRun(s.catalog, data) else Run(Ok(()), []);
      if goal.out.Raise? then Run(Raise(goal.out.exc), Lookups(e.fields) + goal.calls)
      else After(Lookups(e.fields) + goal.calls, RecordRun(s, e.fields, data))
  }

  /** The rest of `_process_single_event` once the goal is handled: the qualifier summary, the
      row when the sheet flag is set, and the delay. */
  function RecordRun(s: Setup, e: Fields, data: EventData): Run<Option<EventData>>
  {
    var quals := ProcessQualifiersRun(s, GetOr(e, "qualifier", Arr([])), data);
    if quals.out.Raise? then Run(Raise(quals.out.exc), quals.calls)
    else
      var row := Row(data, s.catalog.eventTypes(data.typeId), quals.out.value);
      var sink := if FeatureFlags.SaveToGsheet(s.env) then [AppendRow(row, GameEventsTab)] else [];
      Run(Ok(Some(data)), quals.calls + sink + [Delay])
  }

  /** A step preceded by calls made before it. */
  function After<T>(before: seq<Call>, r: Run<T>): Run<T>
  {
    Run(r.out, before + r.calls)
  }

  /** A dict entry whose goal step went through makes its lookups, its goal calls and its
      record calls, in that order, and answers what the record step answers. */
  lemma {:induction false} SingleEventThrough(s: Setup, f: Fields, fixture: Value, feed: Value)
    requires var data := EnrichedData(s, f, fixture, feed);
             (if HandlesGoal(data) then GoalRun(s.catalog, data) else Run(Ok(()), [])).out.Ok?
    ensures var data := EnrichedData(s, f, fixture, feed);
            var goal := if HandlesGoal(data) then GoalRun(s.catalog, data) else Run(Ok(()), []);
            SingleEventRun(s, Obj(f), fixture, feed) ==
            Run(RecordRun(s, f, data).out, Lookups(f) + goal.calls + RecordRun(s, f, data).calls)
  {
  }

  /** The comprehension of `process_event` over the entries still to visit: falsy entries are
      skipped, `None` results dropped. */
  function EventsRun(s: Setup, entries: seq<Value>, fixture: Value, feed: Value): Run<seq<EventData>>
    decreases |entries|
  {
    if |entries| == 0 then Run(Ok([]), [])
    else if !Truthy(entries[0]) then EventsRun(s, entries[1..], fixture, feed)
    else
      var one := SingleEventRun(s, entries[0], fixture, feed);
      if one.out.Raise? then Run(Raise(one.out.exc), one.calls)
      else Prepend(OptionSeq(one.out.value), one.calls, EventsRun(s, entries[1..], fixture, feed))
  }

  lemma {:induction false} EventsUnfold(s: Setup, entries: seq<Value>, i: nat, fixture: Value, feed: Value)
    requires i < |entries|
    ensures var rest := EventsRun(s, entries[i + 1..], fixture, feed);
            var one := SingleEventRun(s, entries[i], fixture, feed);
            EventsRun(s, entries[i..], fixture, feed) ==
            if !Truthy(entries[i]) then rest
            else if one.out.Raise? then Run(Raise(one.out.exc), one.calls)
            else Prepend(OptionSeq(one.out.value), one.calls, rest)
  {
    assert entries[i..][1..] == entries[i + 1..];
  }

  // ---------------------------------------------------------------------------------------------
  // Messages

  /** The message passes the first check and its `matchDetails` can be read. */
  predicate WellFormed(message: Value)
  {
    message.Obj? && Truthy(Get(message.fields, "matchDetails")) && Get(message.fields, "matchDetails").Obj?
  }

  function MatchDetails(message: Value): Fields
    requires WellFormed(message)
  {
    Get(message.fields, "matchDetails").fields
  }

  /** The message is archived: it has events, the archive flag is set and it comes from the live
      score feed. */
  predicate SavesMessage(env: FeatureFlags.Env, message: Value)
  {
    WellFormed(message) && Truthy(Get(MatchDetails(message), "event")) &&
    FeatureFlags.SaveLivescoreEvents(env) && IsLivescore(Get(MatchDetails(message), "feedName"))
  }

  /** The events a message carries: a single dict stands for a list of one. */
  function EventEntries(raw: Value): Result<seq<Value>>
  {
    if raw.Obj? then Ok([raw]) else Iterate(raw)
  }

  /** The checks `process_event` makes before it touches anything: an empty message or one
      without match details is invalid, one that is not a dict (or whose details are not) raises,
      and one without events is processed with no details. `None` lets the message through. */
  function Screen(message: Value): (r: Option<Result<Response>>)
    ensures r.None? <==> WellFormed(message) && Truthy(Get(MatchDetails(message), "event"))
    ensures r == Some(Ok(Processed([]))) <==> WellFormed(message) && !Truthy(Get(MatchDetails(message), "event"))
  {
    if !Truthy(message) then Some(Ok(Invalid))
    else if !message.Obj? then Some(Raise(AttributeError))
    else if !Truthy(Get(message.fields, "matchDetails")) then Some(Ok(Invalid))
    else if !WellFormed(message) then Some(Raise(AttributeError))
    else if !Truthy(Get(MatchDetails(message), "event")) then Some(Ok(Processed([])))
    else None
  }

  /** `process_event`. */
  function ProcessEventRun(s: Setup, message: Value): Run<Response>
  {
    match Screen(message)
    case Some(r) => Run(r, [])
    case None => MessageEventsRun(s, message)
  }

  /** The rest of `process_event` for a message with events: the archive save, then the events. */
  function MessageEventsRun(s: Setup, message: Value): Run<Response>
    requires WellFormed(message) && Truthy(Get(MatchDetails(message), "event"))
  {
    var md := MatchDetails(message);
    var fixture, raw, feed := Get(md, "id"), Get(md, "event"), Get(md, "feedName");
    var save := if SavesMessage(s.env, message) then [SaveLivescore(message, fixture)] else [];
    match EventEntries(raw)
    case Raise(exc) => Run(Raise(exc), save)
    case Ok(entries) =>
      var r := EventsRun(s, entries, fixture, feed);
      Run(if r.out.Raise? then Raise(r.out.exc) else Ok(Processed(r.out.value)), save + r.calls)
  }

  // ---------------------------------------------------------------------------------------------
  // The livescore archive

  /** A file of the archive: JSON text that does not decode, or a decoded document. */
  datatype Stored = Undecodable | Doc(doc: Value)

  /** `logs/livescore/<fixture>_<date>.json`. */
  function LivescoreFilename(fixture: Value, date: string): string
  {
    "logs/livescore/" + PyStr(fixture) + "_" + date + ".json"
  }

  /** The events an archive file already holds: none when it is missing, undecodable or not a list. */
  function PriorEvents(file: Option<Stored>): seq<Value>
  {
    if file.Some? && file.value.Doc? && file.value.doc.Arr? then file.value.doc.items else []
  }

  /** The archive after the message is appended to the fixture's file of the day. */
  function Archived(files: map<string, Stored>, message: Value, fixture: Value, date: string): map<string, Stored>
  {
    var name := LivescoreFilename(fixture, date);
    files[name := Doc(Arr(PriorEvents(if name in files then Some(files[name]) else None) + [message]))]
  }

  /** The directory the archive lives in, file name to content. */
  class FileSystem {
    var files: map<string, Stored>

    constructor(files: map<string, Stored>)
      ensures this.files == files
    {
      this.files := files;
    }

    /** `save_livescore_event`: reads the day's list for the fixture, appends the message and
        writes the list back. */
    method SaveLivescoreEvent(message: Value, fixture: Value, date: string)
      modifies this
      ensures files == Archived(old(files), message, fixture, date)
    {
      var filename := LivescoreFilename(fixture, date);
      var events: seq<Value> := [];
      if filename in files {
        var stored := files[filename];
        if stored.Doc? && stored.doc.Arr? {
          events := stored.doc.items;
        }
      }
      assert events == PriorEvents(if filename in files then Some(files[filename]) else None);
      events := events + [message];
      files := files[filename := Doc(Arr(events))];
    }
  }

  // ---------------------------------------------------------------------------------------------
  // The service

  class MatchEventService {
    const env: FeatureFlags.Env
    const catalog: Catalog
    const handlerMap: map<int, Handler>
    const fs: FileSystem
    /** Everything the service has done, oldest first. */
    var calls: seq<Call>

    constructor(env: FeatureFlags.Env, catalog: Catalog, fs: FileSystem)
      ensures this.env == env && this.fs == fs && handlerMap == DefaultHandlers && calls == []
    {
      this.env := env;
      this.catalog := catalog;
      this.fs := fs;
      handlerMap := DefaultHandlers;
      calls := [];
    }

    function Config(): Setup
    {
      Setup(env, handlerMap, catalog)
    }

    /** `_handle_cards`. */
    method HandleCards(id: Value, value: Value, data: EventData)
      modifies this`calls
      ensures calls == old(calls) + CardCalls(id, value, data)
    {
      if !Present(data.player) {
        return;
      }
      var color: string;
      if IsId(id, YellowCardQualifierId) {
        color := "yellow";
      } else if IsId(id, RedCardQualifierId) {
        color := "red";
      } else {
        return;
      }
      var player := data.player.value;
      calls := calls + [CardImage(color, Get(player, "photo"), Get(player, "name"))];
    }

    /** `_handle_goal`. */
    method HandleGoal(data: EventData) returns (r: Result<()>)
      modifies this`calls
      ensures r == GoalRun(catalog, data).out
      ensures calls == old(calls) + GoalRun(catalog, data).calls
    {
      if !Present(data.player) || !Truthy(data.fixtureId) {
        return Ok(());
      }
      calls := calls + [MatchStats(data.fixtureId)];
      var current := catalog.matchStats(data.fixtureId);
      if !Truthy(current) {
        return Ok(());
      }
      if !current.Obj? {
        return Raise(AttributeError);
      }
      var live := GetOr(current.fields, "liveData", Obj([]));
      if !live.Obj? {
        return Raise(AttributeError);
      }
      var details := GetOr(live.fields, "matchDetails", Obj([]));
      if !details.Obj? {
        return Raise(AttributeError);
      }
      if data.team.None? {
        return Raise(AttributeError);
      }
      var player := data.player.value;
      calls := calls + [GoalImage(Get(player, "name"), Get(player, "photo"), Get(data.team.value, "goal_template"))];
      return Ok(());
    }

    /** One pass of the loop of `_process_qualifiers`. */
    method ProcessQualifier(q: Value, data: EventData) returns (r: Result<Option<string>>)
      modifies this`calls
      ensures r == QualifierStep(Config(), q, data).out
      ensures calls == old(calls) + QualifierStep(Config(), q, data).calls
    {
      if !q.Obj? {
        return Raise(AttributeError);
      }
      var id := Get(q.fields, "qualifierId");
      var value := Get(q.fields, "value");
      if id == Null {
        return Ok(None);
      }
      var handler := HandlerFor(handlerMap, id);
      if handler.Raise? {
        return Raise(handler.exc);
      }
      if handler.value.Some? && IsId(data.typeId, CardEventTypeId) && !IsLivescore(data.feedName) {
        match handler.value.value
        case HandleCards => HandleCards(id, value, data);
      }
      calls := calls + [LookupQualifier(id)];
      var info := catalog.qualifiers(id);
      var name := if Present(info) then PyStr(Get(info.value, "name")) else "Unknown";
      return Ok(Some(name + " (" + PyStr(value) + ")"));
    }

    /** `_process_qualifiers`. */
    method ProcessQualifiers(qualifiers: Value, data: EventData) returns (r: Result<string>)
      modifies this`calls
      ensures r == ProcessQualifiersRun(Config(), qualifiers, data).out
      ensures calls == old(calls) + ProcessQualifiersRun(Config(), qualifiers, data).calls
    {
      var items := Iterate(qualifiers);
      if items.Raise? {
        return Raise(items.exc);
      }
      var parts := QualifierParts(items.value, data);
      if parts.Raise? {
        return Raise(parts.exc);
      }
      return Ok(Join(parts.value, ", "));
    }

    /** The loop of `_process_qualifiers`, collecting the parts in order. */
    method QualifierParts(qs: seq<Value>, data: EventData) returns (r: Result<seq<string>>)
      modifies this`calls
      ensures r == QualifiersRun(Config(), qs, data).out
      ensures calls == old(calls) + QualifiersRun(Config(), qs, data).calls
    {
      var parts: seq<string> := [];
      ghost var done: seq<Call> := [];
      var i := 0;
      QualifiersEnds(Config(), qs, data, parts, done);
      while i < |qs|
        invariant 0 <= i <= |qs|
        invariant calls == old(calls) + done
        invariant QualifiersSoFar(Config(), qs, i, data, parts, done)
      {
        ghost var made;
        var next;
        next, made := NextQualifierPart(qs, i, data, parts, done);
        AppendAssoc(old(calls), done, made);
        done := done + made;
        if next.Raise? {
          return next;
        }
        parts := next.value;
        i := i + 1;
      }
      QualifiersEnds(Config(), qs, data, parts, done);
      return Ok(parts);
    }

    /** One pass of the loop of `_process_qualifiers`: either the loop moves on with the new parts
        or, when the qualifier raises, the whole loop ends with its exception. */
    method NextQualifierPart(qs: seq<Value>, i: nat, data: EventData, parts: seq<string>, ghost done: seq<Call>)
      returns (next: Result<seq<string>>, ghost made: seq<Call>)
      requires i < |qs| && QualifiersSoFar(Config(), qs, i, data, parts, done)
      modifies this`calls
      ensures calls == old(calls) + made
      ensures next.Ok? ==> QualifiersSoFar(Config(), qs, i + 1, data, next.value, done + made)
      ensures next.Raise? ==> QualifiersRun(Config(), qs, data) == Run(next, done + made)
    {
      var part := ProcessQualifier(qs[i], data);
      made := QualifierStep(Config(), qs[i], data).calls;
      if part.Raise? {
        QualifiersStop(Config(), qs, i, data, parts, done);
        return Raise(part.exc), made;
      }
      QualifiersAdvance(Config(), qs, i, data, parts, done);
      next := Ok(parts + OptionSeq(part.value));
    }

    /** `_process_single_event`. */
    method ProcessSingleEvent(e: Value, fixture: Value, feed: Value) returns (r: Result<Option<EventData>>)
      modifies this`calls
      ensures r == SingleEventRun(Config(), e, fixture, feed).out
      ensures calls == old(calls) + SingleEventRun(Config(), e, fixture, feed).calls
    {
      if !e.Obj? {
        return Ok(None);
      }
      var f := e.fields;
      var data, eventType := LookUp(f, fixture, feed);
      var g := GoalStep(data);
      if g.Raise? {
        return Raise(g.exc);
      }
      ghost var goal := if HandlesGoal(data) then GoalRun(catalog, data) else Run(Ok(()), []);
      ghost var record := RecordRun(Config(), f, data);
      ghost var before := calls;
      r := RecordEvent(f, data, eventType);
      SingleEventThrough(Config(), f, fixture, feed);
      AppendAssoc(old(calls), Lookups(f), goal.calls);
      AppendAssoc(old(calls), Lookups(f) + goal.calls, record.calls);
    }

    /** The goal step of `_process_single_event`: only a goal outside the livescore feed is
        handled. */
    method GoalStep(data: EventData) returns (g: Result<()>)
      modifies this`calls
      ensures g == (if HandlesGoal(data) then GoalRun(catalog, data) else Run(Ok(()), [])).out
      ensures calls == old(calls) + (if HandlesGoal(data) then GoalRun(catalog, data) else Run(Ok(()), [])).calls
    {
      g := Ok(());
      if IsId(data.typeId, GoalEventTypeId) && !IsLivescore(data.feedName) {
        g := HandleGoal(data);
      } else {
        AppendEmpty(calls);
      }
    }

    /** The reference lookups of `_process_single_event` and the enriched event. */
    method LookUp(f: Fields, fixture: Value, feed: Value) returns (data: EventData, eventType: Option<Fields>)
      modifies this`calls
      ensures data == EnrichedData(Config(), f, fixture, feed)
      ensures eventType == catalog.eventTypes(data.typeId)
      ensures calls == old(calls) + Lookups(f)
    {
      var optaId := Get(f, "id");
      var typeId := Get(f, "typeId");
      var contestant := Get(f, "contestantId");
      var playerId := Get(f, "playerId");
      calls := calls + [LookupEventType(typeId)];
      eventType := catalog.eventTypes(typeId);
      calls := calls + [LookupTeam(contestant)];
      var team := catalog.teams(contestant);
      calls := calls + [LookupPlayer(playerId)];
      var player := catalog.players(playerId);
      var meta := ExtractEventMetadata(f);
      data := EventData(team, player, optaId, typeId, contestant, fixture, feed, meta);
    }

    /** The rest of `_process_single_event` once the goal is handled. */
    method RecordEvent(e: Fields, data: EventData, eventType: Option<Fields>) returns (r: Result<Option<EventData>>)
      requires eventType == catalog.eventTypes(data.typeId)
      modifies this`calls
      ensures r == RecordRun(Config(), e, data).out
      ensures calls == old(calls) + RecordRun(Config(), e, data).calls
    {
      var summary := ProcessQualifiers(GetOr(e, "qualifier", Arr([])), data);
      if summary.Raise? {
        return Raise(summary.exc);
      }
      var row := Row(data, eventType, summary.value);
      var sink := if FeatureFlags.SaveToGsheet(env) then [AppendRow(row, GameEventsTab)] else [];
      calls := calls + sink + [Delay];
      AppendAssoc(old(calls), ProcessQualifiersRun(Config(), GetOr(e, "qualifier", Arr([])), data).calls, sink);
      AppendAssoc(old(calls), ProcessQualifiersRun(Config(), GetOr(e, "qualifier", Arr([])), data).calls + sink, [Delay]);
      return Ok(Some(data));
    }

    /** `process_event`; `date` is the day the archive file is named after. */
    method ProcessEvent(message: Value, date: string) returns (r: Result<Response>)
      modifies this`calls, fs
      ensures r == ProcessEventRun(Config(), message).out
      ensures calls == old(calls) + ProcessEventRun(Config(), message).calls
      ensures fs.files == if SavesMessage(env, message)
                          then Archived(old(fs.files), message, Get(MatchDetails(message), "id"), date)
                          else old(fs.files)
    {
      var early := Screen(message);
      if early.Some? {
        AppendEmpty(calls);
        return early.value;
      }
      r := ProcessMessageEvents(message, date);
    }

    /** `process_event` once the message is known to carry events. */
    method ProcessMessageEvents(message: Value, date: string) returns (r: Result<Response>)
      requires WellFormed(message) && Truthy(Get(MatchDetails(message), "event"))
      modifies this`calls, fs
      ensures r == MessageEventsRun(Config(), message).out
      ensures calls == old(calls) + MessageEventsRun(Config(), message).calls
      ensures fs.files == if SavesMessage(env, message)
                          then Archived(old(fs.files), message, Get(MatchDetails(message), "id"), date)
                          else old(fs.files)
    {
      var md := Get(message.fields, "matchDetails");
      var fixture := Get(md.fields, "id");
      var raw := Get(md.fields, "event");
      var feed := Get(md.fields, "feedName");
      ghost var save := if SavesMessage(env, message) then [SaveLivescore(message, fixture)] else [];
      AppendEmpty(calls);
      if FeatureFlags.SaveLivescoreEvents(env) && feed == Str(LivescoreFeedName) {
        calls := calls + [SaveLivescore(message, fixture)];
        fs.SaveLivescoreEvent(message, fixture, date);
      }
      assert calls == old(calls) + save;
      var entries: seq<Value>;
      if raw.Obj? {
        entries := [raw];
      } else {
        var items := Iterate(raw);
        if items.Raise? {
          return Raise(items.exc);
        }
        entries := items.value;
      }
      ghost var events := EventsRun(Config(), entries, fixture, feed);
      var details := ProcessEntries(entries, fixture, feed);
      AppendAssoc(old(calls), save, events.calls);
      if details.Raise? {
        return Raise(details.exc);
      }
      return Ok(Processed(details.value));
    }

    /** The comprehension of `process_event` over the events of a message. */
    method ProcessEntries(entries: seq<Value>, fixture: Value, feed: Value) returns (r: Result<seq<EventData>>)
      modifies this`calls
      ensures r == EventsRun(Config(), entries, fixture, feed).out
      ensures calls == old(calls) + EventsRun(Config(), entries, fixture, feed).calls
    {
      ghost var cfg := Config();
      var details: seq<EventData> := [];
      ghost var done: seq<Call> := [];
      var i := 0;
      PrependNothing(EventsRun(cfg, entries, fixture, feed));
      assert entries[0..] == entries;
      while i < |entries|
        invariant 0 <= i <= |entries|
        invariant calls == old(calls) + done
        invariant EventsRun(cfg, entries, fixture, feed) == Prepend(details, done, EventsRun(cfg, entries[i..], fixture, feed))
      {
        ghost var rest := EventsRun(cfg, entries[i + 1..], fixture, feed);
        EventsUnfold(cfg, entries, i, fixture, feed);
        if Truthy(entries[i]) {
          ghost var one := SingleEventRun(cfg, entries[i], fixture, feed);
          var result := ProcessSingleEvent(entries[i], fixture, feed);
          AppendAssoc(old(calls), done, one.calls);
          if result.Raise? {
            return Raise(result.exc);
          }
          PrependPrepend(details, done, OptionSeq(result.value), one.calls, rest);
          details := details + OptionSeq(result.value);
          done := done + one.calls;
        }
        i := i + 1;
      }
      assert entries[i..] == [];
      assert details + [] == details;
      assert done + [] == done;
      return Ok(details);
    }
  }
}
