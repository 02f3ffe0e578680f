/** The streaming feed client (websocket-opta.py). After connecting it sends the outlet
    credential, then reads frames one at a time: every frame is logged first, then an
    `is_authorised` control frame is answered with a subscription, a `not_authorised` one ends
    the session, and everything else is only shown. Any exception ends the session quietly.

    The transport is the sequence of what the socket delivers; the clock is the arrival time
    each frame carries; the log file is the list it was last rewritten with. */
module FeedClient {
  import opened Python

  const LogFile: string := "sddp_messages.json"

  /** The feeds `connect_sddp` subscribes to when none are given. */
  const DefaultFeeds: Value := Arr([Str("matchEvent")])

  /** What the socket delivers next: a text that decodes to `msg` (received at time `at`), a text
      that is not JSON, or the connection closing with an error. A clean close is the end of the
      sequence. */
  datatype Inbound = Frame(msg: Value, at: string) | Garbled | Closed

  /** How a session ends. The coroutine returns `None` in every case; this only tells them apart. */
  datatype End =
    | ConnectFailed          // the connection could not be opened
    | Exhausted              // the server closed the stream cleanly
    | Rejected               // a `not_authorised` frame was received
    | Dropped                // `ConnectionClosedError`
    | Failed(exc: Exception) // any other exception, caught

  /** The branches of the frame dispatch, in the order they are tried. */
  datatype Kind = Authorised | NotAuthorised | LiveUpdate | Other

  /** `OUTLET_KEY = os.getenv("OUTLET")`. */
  function OutletKey(env: map<string, string>): Value
  {
    if "OUTLET" in env then Str(env["OUTLET"]) else Null
  }

  /** The handshake `{"outlet": {"OutletKeyService": {"outletKey": key}}}`. */
  function OutletFrame(key: Value): Value
  {
    Obj([("outlet", Obj([("OutletKeyService", Obj([("outletKey", key)]))]))])
  }

  /** The subscription `{"content": {"name": "subscribe", "feed": ..., "fixtureUuid": ..., "optaId": ...}}`. */
  function SubscribeFrame(fixture: Value, feeds: Value, includeOptaId: bool): Value
  {
    Obj([("content", Obj([("name", Str("subscribe")), ("feed", feeds), ("fixtureUuid", fixture),
                          ("optaId", Bool(includeOptaId))]))])
  }

  /** The entry `append_to_json_file` adds for a message. */
  function LogEntry(msg: Value, at: string): Value
  {
    Obj([("timestamp", Str(at)), ("message", msg)])
  }

  /** `msg.get("outlet", {}).get("msg")`; raises when the message or its `outlet` is not a dict. */
  function OutletMsg(msg: Value): Result<Value>
  {
    if !msg.Obj? then Raise(AttributeError)
    else
      var outlet := GetOr(msg.fields, "outlet", Obj([]));
      if !outlet.Obj? then Raise(AttributeError) else Ok(Get(outlet.fields, "msg"))
  }

  /** Which branch of the dispatch a decoded message takes. The live-update branch reads
      `msg["content"]["liveData"]`, which raises unless `content` is a dict; `in` raises on a
      `content` that is not a container. */
  function Classify(msg: Value): (r: Result<Kind>)
    ensures r.Ok? ==> msg.Obj?
    ensures r == Ok(Authorised) <==> OutletMsg(msg) == Ok(Str("is_authorised"))
    ensures r == Ok(NotAuthorised) <==> OutletMsg(msg) == Ok(Str("not_authorised"))
  {
    match OutletMsg(msg)
    case Raise(e) => Raise(e)
    case Ok(m) =>
      if m == Str("is_authorised") then Ok(Authorised)
      else if m == Str("not_authorised") then Ok(NotAuthorised)
      else if !HasKey(msg.fields, "content") then Ok(Other)
      else
        var content := Get(msg.fields, "content");
        match Contains(content, "liveData")
        case Raise(e) => Raise(e)
        case Ok(found) =>
          if !found then Ok(Other)
          else if content.Obj? then Ok(LiveUpdate)
          else Raise(TypeError)
  }

  /** The loop goes on past this inbound item: a decoded frame that neither raises nor is a
      rejection. */
  predicate Continues(item: Inbound)
  {
    item.Frame? && Classify(item.msg).Ok? && Classify(item.msg).value != NotAuthorised
  }

  /** What a session did: the log entries it added, the frames it sent and how it ended. */
  datatype Session = Session(log: seq<Value>, sent: seq<Value>, end: End)

  /** A session with a log and sent frames put in front. */
  function Preceded(log: seq<Value>, sent: seq<Value>, r: Session): Session
  {
    Session(log + r.log, sent + r.sent, r.end)
  }

  /** Nothing in front leaves a session as it is; in front of the empty session it is the whole session. */
  lemma {:induction false} PrecededEnds(log: seq<Value>, sent: seq<Value>, r: Session)
    ensures Preceded([], [], r) == r
    ensures Preceded(log, sent, Session([], [], Exhausted)) == Session(log, sent, Exhausted)
  {
    assert [] + r.log == r.log && [] + r.sent == r.sent;
    assert log + [] == log && sent + [] == sent;
  }

  /** How the loop ends on an item that does not let it continue. */
  function StopOn(item: Inbound): End
    requires !Continues(item)
  {
    match item
    case Closed => Dropped
    case Garbled => Failed(RuntimeValueError)
    case Frame(msg, _) => if Classify(msg).Raise? then Failed(Classify(msg).exc) else Rejected
  }

  /** What an item adds to the log: the entry of a decoded frame. */
  function ItemLog(item: Inbound): seq<Value>
  {
    if item.Frame? then [LogEntry(item.msg, item.at)] else []
  }

  /** What the client sends in answer to an item: the subscription, for an `is_authorised` frame. */
  function ItemReply(item: Inbound, fixture: Value, feeds: Value, includeOptaId: bool): seq<Value>
  {
    if item.Frame? && Classify(item.msg) == Ok(Authorised) then [SubscribeFrame(fixture, feeds, includeOptaId)] else []
  }

  /** The per-frame loop of `connect_sddp` over the items still to come. */
  function Dispatch(frames: seq<Inbound>, fixture: Value, feeds: Value, includeOptaId: bool): Session
    decreases |frames|
  {
    if |frames| == 0 then Session([], [], Exhausted)
    else if !Continues(frames[0]) then Session(ItemLog(frames[0]), [], StopOn(frames[0]))
    else Preceded(ItemLog(frames[0]), ItemReply(frames[0], fixture, feeds, includeOptaId),
                  Dispatch(frames[1..], fixture, feeds, includeOptaId))
  }

  /** `connect_sddp`: the handshake, then the loop; nothing happens when the connection fails. */
  function SessionRun(connected: bool, key: Value, frames: seq<Inbound>, fixture: Value, feeds: Value,
                      includeOptaId: bool): Session
  {
    if !connected then Session([], [], ConnectFailed)
    else Preceded([], [OutletFrame(key)], Dispatch(frames, fixture, feeds, includeOptaId))
  }

  /** The position of the first item the loop stops on, or the length when there is none. */
  function FirstStop(frames: seq<Inbound>): (n: nat)
    ensures n <= |frames|
    ensures forall k :: 0 <= k < n ==> Continues(frames[k])
    ensures n < |frames| ==> !Continues(frames[n])
    decreases |frames|
  {
    if |frames| == 0 || !Continues(frames[0]) then 0 else 1 + FirstStop(frames[1..])
  }

  /** How many of the items are `is_authorised` frames. */
  function CountAuthorised(frames: seq<Inbound>): nat
    decreases |frames|
  {
    if |frames| == 0 then 0
    else (if frames[0].Frame? && Classify(frames[0].msg) == Ok(Authorised) then 1 else 0) + CountAuthorised(frames[1..])
  }

  function Subscriptions(n: nat, fixture: Value, feeds: Value, includeOptaId: bool): seq<Value>
  {
    seq(n, _ => SubscribeFrame(fixture, feeds, includeOptaId))
  }

  /** The loop logs every frame it reads, in order, up to and including the one it stops on;
      it sends one subscription per `is_authorised` frame before that point and nothing else; it
      ends as the item it stops on says, or cleanly when every item let it continue. */
  lemma {:induction false} DispatchFacts(frames: seq<Inbound>, fixture: Value, feeds: Value, includeOptaId: bool)
    ensures var r := Dispatch(frames, fixture, feeds, includeOptaId);
            var stop := FirstStop(frames);
            |r.log| == (if stop < |frames| && frames[stop].Frame? then stop + 1 else stop) &&
            (forall k :: 0 <= k < |r.log| ==> frames[k].Frame? && r.log[k] == LogEntry(frames[k].msg, frames[k].at)) &&
            r.sent == Subscriptions(CountAuthorised(frames[..stop]), fixture, feeds, includeOptaId) &&
            r.end == (if stop == |frames| then Exhausted else StopOn(frames[stop]))
  {
    DispatchLog(frames, fixture, feeds, includeOptaId);
    DispatchSent(frames, fixture, feeds, includeOptaId);
    DispatchEnd(frames, fixture, feeds, includeOptaId);
  }

  lemma {:induction false} DispatchLog(frames: seq<Inbound>, fixture: Value, feeds: Value, includeOptaId: bool)
    ensures var r := Dispatch(frames, fixture, feeds, includeOptaId);
            var stop := FirstStop(frames);
            |r.log| == (if stop < |frames| && frames[stop].Frame? then stop + 1 else stop) &&
            (forall k :: 0 <= k < |r.log| ==> frames[k].Frame? && r.log[k] == LogEntry(frames[k].msg, frames[k].at))
    decreases |frames|
  {
    if |frames| > 0 && Continues(frames[0]) {
      var r := Dispatch(frames, fixture, feeds, includeOptaId);
      var rest := Dispatch(frames[1..], fixture, feeds, includeOptaId);
      DispatchLog(frames[1..], fixture, feeds, includeOptaId);
      LogStep(frames, fixture, feeds, includeOptaId);
      forall k | 1 <= k < |r.log|
        ensures frames[k].Frame? && r.log[k] == LogEntry(frames[k].msg, frames[k].at)
      {
        assert r.log[k] == rest.log[k - 1];
        assert frames[1..][k - 1] == frames[k];
      }
    }
  }

  lemma {:induction false} DispatchSent(frames: seq<Inbound>, fixture: Value, feeds: Value, includeOptaId: bool)
    ensures Dispatch(frames, fixture, feeds, includeOptaId).sent ==
            Subscriptions(CountAuthorised(frames[..FirstStop(frames)]), fixture, feeds, includeOptaId)
    decreases |frames|
  {
    if |frames| == 0 || !Continues(frames[0]) {
      assert frames[..0] == [];
    } else {
      DispatchSent(frames[1..], fixture, feeds, includeOptaId);
      var m := if Classify(frames[0].msg) == Ok(Authorised) then 1 else 0;
      SentStep(frames, fixture, feeds, includeOptaId);
      CountStep(frames);
      SubscriptionsAppend(m, CountAuthorised(frames[1..][..FirstStop(frames[1..])]), fixture, feeds, includeOptaId);
    }
  }

  /** An item that lets the loop continue puts its log entry in front of the rest of the log. */
  lemma {:induction false} LogStep(frames: seq<Inbound>, fixture: Value, feeds: Value, includeOptaId: bool)
    requires |frames| > 0 && Continues(frames[0])
    ensures Dispatch(frames, fixture, feeds, includeOptaId).log ==
            [LogEntry(frames[0].msg, frames[0].at)] + Dispatch(frames[1..], fixture, feeds, includeOptaId).log
    ensures FirstStop(frames) == 1 + FirstStop(frames[1..])
  {
  }

  /** An item that lets the loop continue adds its answer in front of the rest of the session. */
  lemma {:induction false} SentStep(frames: seq<Inbound>, fixture: Value, feeds: Value, includeOptaId: bool)
    requires |frames| > 0 && Continues(frames[0])
    ensures var m := if Classify(frames[0].msg) == Ok(Authorised) then 1 else 0;
            Dispatch(frames, fixture, feeds, includeOptaId).sent ==
              Subscriptions(m, fixture, feeds, includeOptaId) + Dispatch(frames[1..], fixture, feeds, includeOptaId).sent
  {
  }

  /** The authorisations before the stop are the first item's and those before the rest's stop. */
  lemma {:induction false} CountStep(frames: seq<Inbound>)
    requires |frames| > 0 && Continues(frames[0])
    ensures CountAuthorised(frames[..FirstStop(frames)]) ==
            (if Classify(frames[0].msg) == Ok(Authorised) then 1 else 0) + CountAuthorised(frames[1..][..FirstStop(frames[1..])])
  {
    var stop := FirstStop(frames);
    assert stop == 1 + FirstStop(frames[1..]);
    CountPrefix(frames, stop);
  }

  /** The authorisations among the first `n` items: the first item's, then those of the next `n - 1`. */
  lemma {:induction false} CountPrefix(frames: seq<Inbound>, n: nat)
    requires 0 < n <= |frames|
    ensures CountAuthorised(frames[..n]) ==
            (if frames[0].Frame? && Classify(frames[0].msg) == Ok(Authorised) then 1 else 0) + CountAuthorised(frames[1..][..n - 1])
  {
    var pre := frames[..n];
    assert pre[0] == frames[0];
    assert pre[1..] == frames[1..][..n - 1];
  }

  lemma {:induction false} SubscriptionsAppend(m: nat, n: nat, fixture: Value, feeds: Value, includeOptaId: bool)
    ensures Subscriptions(m, fixture, feeds, includeOptaId) + Subscriptions(n, fixture, feeds, includeOptaId) ==
            Subscriptions(m + n, fixture, feeds, includeOptaId)
  {
  }

  lemma {:induction false} DispatchEnd(frames: seq<Inbound>, fixture: Value, feeds: Value, includeOptaId: bool)
    ensures Dispatch(frames, fixture, feeds, includeOptaId).end ==
            (if FirstStop(frames) == |frames| then Exhausted else StopOn(frames[FirstStop(frames)]))
    decreases |frames|
  {
    if |frames| > 0 && Continues(frames[0]) {
      DispatchEnd(frames[1..], fixture, feeds, includeOptaId);
      assert frames[1..][FirstStop(frames[1..])..] == frames[1 + FirstStop(frames[1..])..];
    }
  }

  /** The first frame on the wire is the credential, sent before anything is read; a failed
      connection sends and logs nothing. */
  lemma {:induction false} CredentialFirst(connected: bool, key: Value, frames: seq<Inbound>, fixture: Value, feeds: Value, includeOptaId: bool)
    ensures var r := SessionRun(connected, key, frames, fixture, feeds, includeOptaId);
            (connected ==> |r.sent| >= 1 && r.sent[0] == OutletFrame(key)) &&
            (!connected ==> r.log == [] && r.sent == [] && r.end == ConnectFailed)
  {
  }

  /** Called with its defaults, `connect_sddp` answers an authorisation by subscribing the fixture
      to the match-event feed with opta ids included. */
  lemma {:induction false} DefaultSubscription(key: Value, at: string, fixture: Value)
    ensures var authorised := Obj([("outlet", Obj([("msg", Str("is_authorised"))]))]);
            SessionRun(true, key, [Frame(authorised, at)], fixture, DefaultFeeds, true) ==
            Session([LogEntry(authorised, at)],
                    [OutletFrame(key),
                     Obj([("content", Obj([("name", Str("subscribe")), ("feed", Arr([Str("matchEvent")])),
                                           ("fixtureUuid", fixture), ("optaId", Bool(true))]))])],
                    Exhausted)
  {
    var outlet := Obj([("msg", Str("is_authorised"))]);
    var authorised := Obj([("outlet", outlet)]);
    GetAt(authorised.fields, 0, "outlet");
    GetAt(outlet.fields, 0, "msg");
    assert Classify(authorised) == Ok(Authorised);
    var frames := [Frame(authorised, at)];
    assert frames[1..] == [];
    assert Continues(frames[0]);
    var sub := SubscribeFrame(fixture, DefaultFeeds, true);
    assert ItemReply(frames[0], fixture, DefaultFeeds, true) == [sub];
    assert ItemLog(frames[0]) == [LogEntry(authorised, at)];
    assert Dispatch(frames[1..], fixture, DefaultFeeds, true) == Session([], [], Exhausted);
    var d := Dispatch(frames, fixture, DefaultFeeds, true);
    assert d == Preceded([LogEntry(authorised, at)], [sub], Session([], [], Exhausted));
    PrecededEnds([LogEntry(authorised, at)], [sub], Session([], [], Exhausted));
    assert SessionRun(true, key, frames, fixture, DefaultFeeds, true) == Preceded([], [OutletFrame(key)], d);
    assert [] + d.log == d.log;
  }

  /** A `not_authorised` frame that the loop reaches is the last one read: it is logged, nothing
      after it is read, no subscription answers it or anything after it, and the session ends
      rejected. */
  lemma {:induction false} RejectionStops(frames: seq<Inbound>, i: nat, fixture: Value, feeds: Value, includeOptaId: bool)
    requires i < |frames| && frames[i].Frame? && Classify(frames[i].msg) == Ok(NotAuthorised)
    requires forall k :: 0 <= k < i ==> Continues(frames[k])
    ensures var r := Dispatch(frames, fixture, feeds, includeOptaId);
            |r.log| == i + 1 && r.end == Rejected &&
            r.sent == Subscriptions(CountAuthorised(frames[..i]), fixture, feeds, includeOptaId)
  {
    FirstStopAt(frames, i);
    DispatchFacts(frames, fixture, feeds, includeOptaId);
  }

  lemma {:induction false} FirstStopAt(frames: seq<Inbound>, i: nat)
    requires i < |frames| && !Continues(frames[i])
    requires forall k :: 0 <= k < i ==> Continues(frames[k])
    ensures FirstStop(frames) == i
    decreases i
  {
    if i > 0 {
      FirstStopAt(frames[1..], i - 1);
    }
  }

  /** Each `is_authorised` frame is answered by exactly one subscription naming the fixture, the
      feeds and the opta-id flag: a session of frames that all let the loop continue sends the
      credential and then one subscription per such frame, and logs every frame. */
  lemma {:induction false} SubscriptionPerAuthorisation(key: Value, frames: seq<Inbound>, fixture: Value, feeds: Value, includeOptaId: bool)
    requires forall k :: 0 <= k < |frames| ==> Continues(frames[k])
    ensures var r := SessionRun(true, key, frames, fixture, feeds, includeOptaId);
            r.sent == [OutletFrame(key)] + Subscriptions(CountAuthorised(frames), fixture, feeds, includeOptaId) &&
            |r.log| == |frames| && r.end == Exhausted
  {
    DispatchFacts(frames, fixture, feeds, includeOptaId);
    assert frames[..|frames|] == frames;
  }

  /** The branches are tried in order: a frame whose outlet says `is_authorised` subscribes even
      when it also carries live data; live updates and other frames neither send nor stop. */
  lemma {:induction false} Precedence(msg: Value, at: string, rest: seq<Inbound>, fixture: Value, feeds: Value, includeOptaId: bool)
    requires Classify(msg) == Ok(LiveUpdate) || Classify(msg) == Ok(Other)
    ensures Dispatch([Frame(msg, at)] + rest, fixture, feeds, includeOptaId) ==
            Preceded([LogEntry(msg, at)], [], Dispatch(rest, fixture, feeds, includeOptaId))
  {
    assert ([Frame(msg, at)] + rest)[1..] == rest;
  }

  /** An authorisation wins over live data in the same frame. */
  lemma {:induction false} AuthorisationBeforeContent(live: Value)
    ensures Classify(Obj([("outlet", Obj([("msg", Str("is_authorised"))])),
                          ("content", Obj([("liveData", live)]))])) == Ok(Authorised)
  {
    var outlet := Obj([("msg", Str("is_authorised"))]);
    var msg := Obj([("outlet", outlet), ("content", Obj([("liveData", live)]))]);
    GetAt(msg.fields, 0, "outlet");
    GetAt(outlet.fields, 0, "msg");
  }

  /** A client: the process-wide list of logged messages, what the log file holds, and every
      frame sent so far. */
  class SddpClient {
    /** `all_messages`. */
    var allMessages: seq<Value>
    /** The list `sddp_messages.json` was last written with; `None` before the first write. */
    var logFile: Option<seq<Value>>
    /** The frames sent on the socket, oldest first, as the values `json.dumps` writes out. */
    var sent: seq<Value>

    constructor()
      ensures allMessages == [] && logFile == None && sent == []
    {
      allMessages := [];
      logFile := None;
      sent := [];
    }

    /** `append_to_json_file`: one entry more, and the file holds the whole list. */
    method AppendToJsonFile(msg: Value, at: string)
      modifies this`allMessages, this`logFile
      ensures allMessages == old(allMessages) + [LogEntry(msg, at)]
      ensures logFile == Some(allMessages)
    {
      var entry := Obj([("timestamp", Str(at)), ("message", msg)]);
      allMessages := allMessages + [entry];
      logFile := Some(allMessages);
    }

    /** One item of the `async for` loop of `connect_sddp`: a frame is logged before anything else,
        an `is_authorised` outlet is answered with the subscription, `not_authorised` ends the loop,
        and so does a frame whose outlet or content cannot be read. */
    method ReceiveFrame(item: Inbound, fixture: Value, feeds: Value, includeOptaId: bool) returns (stop: bool, end: End)
      modifies this`allMessages, this`logFile, this`sent
      ensures allMessages == old(allMessages) + ItemLog(item)
      ensures sent == old(sent) + (if stop then [] else ItemReply(item, fixture, feeds, includeOptaId))
      ensures logFile == (if item.Frame? then Some(allMessages) else old(logFile))
      ensures stop == !Continues(item) && (stop ==> end == StopOn(item))
    {
      stop, end := true, Exhausted;
      if item.Closed? {
        return true, Dropped;
      }
      if item.Garbled? {
        return true, Failed(RuntimeValueError);
      }
      var msg := item.msg;
      AppendToJsonFile(msg, item.at);
      var outlet := OutletMsg(msg);
      if outlet.Raise? {
        return true, Failed(outlet.exc);
      }
      if outlet.value == Str("is_authorised") {
        var subscription := Obj([("name", Str("subscribe")), ("feed", feeds), ("fixtureUuid", fixture),
                                 ("optaId", Bool(includeOptaId))]);
        sent := sent + [Obj([("content", subscription)])];
        stop := false;
      } else if outlet.value == Str("not_authorised") {
        return true, Rejected;
      } else if HasKey(msg.fields, "content") {
        var content := Get(msg.fields, "content");
        var found := Contains(content, "liveData");
        if found.Raise? {
          return true, Failed(found.exc);
        }
        if found.value && !content.Obj? {
          return true, Failed(TypeError);
        }
        stop := false;
      } else {
        stop := false;
      }
    }

    /** `connect_sddp(fixture_uuid, feeds=["matchEvent"], include_opta_id=True)`: when the
        connection opens, the outlet credential read from `OUTLET` is sent before anything is
        read, and then the frames are read; when it fails, nothing is sent or logged. */
    method Connect(env: map<string, string>, connected: bool, frames: seq<Inbound>, fixture: Value,
                   feeds: Value := DefaultFeeds, includeOptaId: bool := true) returns (end: End)
      modifies this`allMessages, this`logFile, this`sent
      ensures var r := SessionRun(connected, OutletKey(env), frames, fixture, feeds, includeOptaId);
              allMessages == old(allMessages) + r.log && sent == old(sent) + r.sent && end == r.end &&
              logFile == (if r.log == [] then old(logFile) else Some(allMessages))
    {
      if !connected {
        AppendEmpty(allMessages);
        AppendEmpty(sent);
        return ConnectFailed;
      }
      var credential := Obj([("outlet", Obj([("OutletKeyService", Obj([("outletKey", OutletKey(env))]))]))]);
      sent := sent + [credential];
      end := ReadFrames(frames, fixture, feeds, includeOptaId);
      ghost var r := Dispatch(frames, fixture, feeds, includeOptaId);
      AppendAssoc(old(sent), [credential], r.sent);
      AppendEmpty(r.log);
    }

    /** The `async for` loop of `connect_sddp` over the inbound items. */
    method ReadFrames(frames: seq<Inbound>, fixture: Value, feeds: Value, includeOptaId: bool) returns (end: End)
      modifies this`allMessages, this`logFile, this`sent
      ensures var r := Dispatch(frames, fixture, feeds, includeOptaId);
              allMessages == old(allMessages) + r.log && sent == old(sent) + r.sent && end == r.end &&
              logFile == (if r.log == [] then old(logFile) else Some(allMessages))
    {
      ghost var run := Dispatch(frames, fixture, feeds, includeOptaId);
      ghost var logged: seq<Value> := [];
      ghost var replies: seq<Value> := [];
      var i := 0;
      assert frames[0..] == frames;
      PrecededEnds(logged, replies, run);
      while i < |frames|
        invariant 0 <= i <= |frames|
        invariant run == Preceded(logged, replies, Dispatch(frames[i..], fixture, feeds, includeOptaId))
        invariant allMessages == old(allMessages) + logged
        invariant sent == old(sent) + replies
        invariant logFile == (if logged == [] then old(logFile) else Some(allMessages))
      {
        var stop, last;
        stop, last, logged, replies := NextFrame(frames, i, fixture, feeds, includeOptaId, run,
                                                 old(allMessages), old(sent), old(logFile), logged, replies);
        if stop {
          return last;
        }
        i := i + 1;
      }
      assert frames[i..] == [];
      PrecededEnds(logged, replies, run);
      return Exhausted;
    }

    /** One pass of the loop of `connect_sddp`, with what the loop has logged and sent so far. */
    method NextFrame(frames: seq<Inbound>, i: nat, fixture: Value, feeds: Value, includeOptaId: bool, ghost run: Session,
                     ghost log0: seq<Value>, ghost sent0: seq<Value>, ghost logFile0: Option<seq<Value>>,
                     ghost logged: seq<Value>, ghost replies: seq<Value>)
      returns (stop: bool, end: End, ghost logged': seq<Value>, ghost replies': seq<Value>)
      requires i < |frames|
      requires run == Preceded(logged, replies, Dispatch(frames[i..], fixture, feeds, includeOptaId))
      requires allMessages == log0 + logged && sent == sent0 + replies
      requires logFile == (if logged == [] then logFile0 else Some(allMessages))
      modifies this`allMessages, this`logFile, this`sent
      ensures allMessages == log0 + logged' && sent == sent0 + replies'
      ensures logFile == (if logged' == [] then logFile0 else Some(allMessages))
      ensures !stop ==> run == Preceded(logged', replies', Dispatch(frames[i + 1..], fixture, feeds, includeOptaId))
      ensures stop ==> run == Session(logged', replies', end)
    {
      var item := frames[i];
      LoopStep(run, logged, replies, frames, i, fixture, feeds, includeOptaId);
      AppendAssoc(log0, logged, ItemLog(item));
      AppendAssoc(sent0, replies, ItemReply(item, fixture, feeds, includeOptaId));
      AppendAssoc(sent0, replies, []);
      stop, end := ReceiveFrame(item, fixture, feeds, includeOptaId);
      logged' := logged + ItemLog(item);
      replies' := replies + (if stop then [] else ItemReply(item, fixture, feeds, includeOptaId));
      assert !item.Frame? ==> logged' == logged;
    }
  }

  /** How the session of the whole loop stands after one more item. */
  lemma {:induction false} LoopStep(run: Session, logged: seq<Value>, replies: seq<Value>, frames: seq<Inbound>, i: nat,
                 fixture: Value, feeds: Value, includeOptaId: bool)
    requires i < |frames|
    requires run == Preceded(logged, replies, Dispatch(frames[i..], fixture, feeds, includeOptaId))
    ensures Continues(frames[i]) ==>
              run == Preceded(logged + ItemLog(frames[i]), replies + ItemReply(frames[i], fixture, feeds, includeOptaId),
                              Dispatch(frames[i + 1..], fixture, feeds, includeOptaId))
    ensures !Continues(frames[i]) ==>
              run == Session(logged + ItemLog(frames[i]), replies, StopOn(frames[i]))
  {
    var item, rest := frames[i], Dispatch(frames[i + 1..], fixture, feeds, includeOptaId);
    AppendEmpty(replies);
    PrecededPreceded(logged, replies, ItemLog(item), ItemReply(item, fixture, feeds, includeOptaId), rest);
    DispatchUnfold(frames, i, fixture, feeds, includeOptaId);
  }

  lemma {:induction false} DispatchUnfold(frames: seq<Inbound>, i: nat, fixture: Value, feeds: Value, includeOptaId: bool)
    requires i < |frames|
    ensures Dispatch(frames[i..], fixture, feeds, includeOptaId) ==
            if !Continues(frames[i]) then Session(ItemLog(frames[i]), [], StopOn(frames[i]))
            else Preceded(ItemLog(frames[i]), ItemReply(frames[i], fixture, feeds, includeOptaId),
                          Dispatch(frames[i + 1..], fixture, feeds, includeOptaId))
  {
    assert frames[i..][0] == frames[i] && frames[i..][1..] == frames[i + 1..];
  }

  lemma {:induction false} PrecededPreceded(log: seq<Value>, sent: seq<Value>, log2: seq<Value>, sent2: seq<Value>, r: Session)
    ensures Preceded(log, sent, Preceded(log2, sent2, r)) == Preceded(log + log2, sent + sent2, r)
  {
    AppendAssoc(log, log2, r.log);
    AppendAssoc(sent, sent2, r.sent);
  }
}
