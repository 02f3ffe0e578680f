# football_mad: match-event pipeline, feed client and image helpers in Dafny

This project models the core of the football_mad services:

- The **match-event enrichment pipeline** (`MatchEventService` in celery_worker/match_event_service.py). A feed message carries `matchDetails` with a fixture `id`, a `feedName` and an `event`, which is one dict or a list. The service validates the message. It archives raw live-score messages when the flag is set. It enriches every dict event through the reference lookups and builds the qualifier summary, which runs the card handler through `handler_map`. It fires the goal handler and writes a 13-column row to the "game events" sheet. It pauses after every event.
  - Everything the service does to the world is a call log on the class: lookups, card and goal images, the match-stats fetch, sheet rows, the delay and the archive save.
  - Every method is proved to make exactly the calls, and return exactly the result, of a pure `...Run` function. The properties are proved about those functions.
- The **streaming feed client** (websocket-opta.py):
  - the outlet handshake;
  - the per-frame loop: log every frame, subscribe on `is_authorised`, stop on `not_authorised`, only show the rest;
  - the JSON message log, modelled as the `SddpClient` class.

  The socket is the sequence of what it delivers.
- **Feature flags** (utils/feature_flags.py).
- **Line-up helpers** (from_base_images.py):
  - hex colour parsing;
  - formation position selection and the in-place vertical flip on an array;
  - the centring offsets of the field layers.
- **Image helpers** (image_processor/image_service.py):
  - goal-scorer partitioning, as a loop;
  - file name sanitising;
  - the card page, with its checks, template choice and save path;
  - the score split and the date-string assembly.
- The **HTML generator service** (image_processor/html_generator_service.py): construction, the picture URL, the page, and the goal and card pages with their checks.
- **Directus queries** (directus/directus_service.py): the items URL, the query built key by key, and the qualifier lookup.

Python values (decoded JSON, dicts in insertion order, lists) are one datatype, `Python.Value`, in python.dfy. Truthiness, `dict.get`, iteration, `in`, `str()`, `repr()` and `json.dumps` are functions on it. An exception is a `Raise` result rather than an abort.

## Model

| member | source | states |
|---|---|---|
| MatchEvents.FileSystem.SaveLivescoreEvent | celery_worker/match_event_service.py:23-47 | The day's file for the fixture becomes `Archived(...)` of the old files. |
| MessageFacts.ArchiveFile | celery_worker/match_event_service.py:28-45 | After a save, the fixture's file holds the old list plus the message at the end. A missing, undecodable or non-list file starts again from the message alone. Other files are untouched, and only the fixture's file can be new. |
| MessageFacts.ArchiveTwice | celery_worker/match_event_service.py:28-45 | Two saves on the same day keep both messages, in order, after what the file held. |
| MatchEvents.ExtractEventMetadata | celery_worker/match_event_service.py:147-157 | The metadata is `timeStamp` (twice), `x`, `y`, `periodId`, `timeMin` and `timeSec` read from the event, `None` when absent. |
| MatchEvents.MetadataFromEntries | celery_worker/match_event_service.py:147-157 | Each metadata field is `None` when the event has no entry for its key. Otherwise it is the value of an entry of the event that holds that key. |
| MatchEvents.Screen | celery_worker/match_event_service.py:113-125 | Processing continues exactly when the message has truthy `matchDetails` and a truthy `event`. A message with `matchDetails` but no events answers "ok" with no details. |
| MatchEvents.MatchEventService.HandleCards | celery_worker/match_event_service.py:60-80 | The log grows by one card image for the player exactly when there is a player: yellow for an id equal to 31, red for one equal to 33 (`31.0` and `33.0` included, as Python's `==` says), nothing otherwise. |
| MatchEvents.MatchEventService.HandleGoal | celery_worker/match_event_service.py:82-110 | Result and calls are those of `GoalRun`: the stats fetch only with a player and a fixture, then the goal image. |
| MatchEvents.MatchEventService.ProcessQualifier | celery_worker/match_event_service.py:219-236 | One loop pass: the result and the calls are those of `QualifierStep`. A non-dict qualifier raises `AttributeError`, and a list or dict id raises `TypeError` at the handler lookup. The handler is found under the integer the id equals, floats included. |
| MatchEvents.MatchEventService.ProcessQualifiers | celery_worker/match_event_service.py:215-237 | The summary and the calls are those of `ProcessQualifiersRun`. |
| MatchEvents.MatchEventService.QualifierParts | celery_worker/match_event_service.py:218-236 | The loop builds exactly the parts and the calls of `QualifiersRun`, also when a qualifier raises part-way. |
| MatchEvents.MatchEventService.GoalStep | celery_worker/match_event_service.py:187-188 | The goal handler runs only for a goal (a `typeId` equal to 16, `16.0` included) outside the livescore feed; otherwise no call is made and nothing is raised. |
| MatchEvents.MatchEventService.ProcessSingleEvent | celery_worker/match_event_service.py:159-213 | Result and calls are those of `SingleEventRun`. |
| MatchEvents.MatchEventService.LookUp | celery_worker/match_event_service.py:164-185 | Three lookups (event type, team, player), and the enriched event data built from them. |
| MatchEvents.MatchEventService.RecordEvent | celery_worker/match_event_service.py:190-213 | Qualifiers, then the row when the sheet flag is set, then the delay, as `RecordRun` says. |
| MatchEvents.MatchEventService.ProcessEvent | celery_worker/match_event_service.py:112-145 | The answer and the calls are those of `ProcessEventRun`. The archive changes exactly when `SavesMessage` holds. |
| MatchEvents.MatchEventService.ProcessMessageEvents | celery_worker/match_event_service.py:127-145 | For a message with events: the save when due, then the events loop, as `MessageEventsRun` says. |
| MatchEvents.MatchEventService.ProcessEntries | celery_worker/match_event_service.py:135-139 | Falsy entries are skipped, the rest are processed in order, and the first raise stops the loop (`EventsRun`). |
| MessageFacts.InvalidMessage | celery_worker/match_event_service.py:113-115 | A falsy message, or one without truthy `matchDetails`, answers the error status. It makes no save, lookup, image, row or delay. |
| MessageFacts.NoEvents | celery_worker/match_event_service.py:123-125 | A missing or empty `event` answers `processed` 0 with no details and no calls at all (not even the save). |
| MessageFacts.SaveGate | celery_worker/match_event_service.py:127-129 | The save happens exactly once when the message has events, the flag is set and the feed is `liveScore`, and never otherwise. It is the first call. |
| MessageFacts.MessageRun | celery_worker/match_event_service.py:127-145 | A message with iterable events gives the save calls followed by the events loop's calls. Its answer is `Processed` of the loop's details, or the loop's exception. |
| MessageFacts.SingleDictIsListOfOne | celery_worker/match_event_service.py:132-133 | A single dict event gives the same answer, the same save decision and the same event calls as a list holding it. |
| MessageFacts.ProcessedMessage | celery_worker/match_event_service.py:132-145 | The details are the enriched dict entries in order. There are no more of them than entries. There is one delay per detail, and one row per detail exactly under the sheet flag. |
| MessageFacts.ProcessedCount | celery_worker/match_event_service.py:141-145 | The answer has status "ok", `processed` equal to the number of details, and the details list. |
| MessageFacts.DictDetails | celery_worker/match_event_service.py:135-144 | The details are never more than the entries. |
| MessageFacts.EntryYield | celery_worker/match_event_service.py:135-139 | A truthy entry that is processed yields one detail if it is a dict, none otherwise. A falsy entry yields none. |
| MessageFacts.EventsCalls | celery_worker/match_event_service.py:135-145 | The events loop never saves. On success its result is exactly the dict entries' details, with one delay each and one row each under the sheet flag. |
| MessageFacts.EventsDetails | celery_worker/match_event_service.py:135-144 | A successful loop returns the enriched dict entries in entry order. |
| MessageFacts.EventsCounts | celery_worker/match_event_service.py:135-139 | Counted by kind over the loop: no saves, one delay per detail, rows only under the sheet flag. |
| MessageFacts.EntryCounts | celery_worker/match_event_service.py:159-213 | One entry's calls: no save, one delay when it yields a detail, one row when it yields one and the flag is set. |
| MessageFacts.SingleEventCalls | celery_worker/match_event_service.py:159-213 | A non-dict event yields `None` without calls. A dict event yields its enriched data, one delay, and one row exactly when the sheet flag is set. |
| MessageFacts.LookupCalls | celery_worker/match_event_service.py:171-173 | Enrichment makes exactly three lookups and nothing else. |
| MessageFacts.RecordCalls | celery_worker/match_event_service.py:190-213 | Recording makes no save or lookup beyond the qualifier names. It makes one delay, and one row under the flag, and returns the event data. |
| MessageFacts.EnrichedFields | celery_worker/match_event_service.py:164-185 | The event data holds the looked-up player and team, the ids read from the event, the fixture, the feed and the metadata. |
| MessageFacts.RowColumns | celery_worker/match_event_service.py:192-206 | The row has 13 fields in order: timestamp, player, team, event type, summary, opta id, fixture, feed, period, minute, second, x, y. Each name falls back to "Unknown". |
| MessageFacts.RowOf | celery_worker/match_event_service.py:192-206 | The same 13 columns, stated over the event data. |
| MessageFacts.NameFallback | celery_worker/match_event_service.py:194-196 | A missing or empty record shows as "Unknown", otherwise its `name`. |
| MessageFacts.RowThenDelay | celery_worker/match_event_service.py:208-211 | A processed event ends with the delay. Under the sheet flag its row, on the "game events" tab, comes just before the delay. |
| MessageFacts.MissesDoNotAbort | celery_worker/match_event_service.py:171-197 | Lookup misses do not abort: an event without a known player (or not a goal) is processed when its qualifiers are dicts with hashable ids. |
| MessageFacts.GoalCalls | celery_worker/match_event_service.py:82-110 | The goal handler fetches the stats once when it has a player and a fixture. It asks for at most one image, exactly when player, fixture, stats and team are present, and makes no other call. |
| MessageFacts.GoalImages | celery_worker/match_event_service.py:104-110 | One goal image exactly when it is due. |
| MessageFacts.GoalCallList | celery_worker/match_event_service.py:93-110 | The handler's calls are the stats fetch, then the image. |
| MessageFacts.GoalRaises | celery_worker/match_event_service.py:97-108 | The handler raises exactly when the fetched stats cannot be read down to `scores`, or the event has no team. |
| MessageFacts.GoalWithoutTeamRaises | celery_worker/match_event_service.py:108 | A goal whose team lookup misses raises `AttributeError` once the stats are there. |
| MatchEventFacts.QualifiersCallKinds | celery_worker/match_event_service.py:219-236 | The qualifier loop makes only card images and name lookups. |
| MatchEventFacts.ProcessQualifiersCallKinds | celery_worker/match_event_service.py:215-237 | The same for the whole summary. |
| MatchEvents.IdsCompareAsNumbers | celery_worker/match_event_service.py:66-68 | An id equals `n` as Python's `==` says: the int, the float `n.0`, and `True`/`False` for 1/0, but not the string of `n`, `None` or `n.5`. |
| MatchEvents.HandlerFor | celery_worker/match_event_service.py:226 | A list or dict id raises `TypeError`, and nothing else does. A handler is found exactly when the id equals (as `==` does) a key of the handler map, and it is that key's handler. |
| MatchEventFacts.OnlyCardQualifiers | celery_worker/match_event_service.py:55-58 | Qualifiers equal to neither 31 nor 33 never ask for a card image. |
| MatchEventFacts.CardDispatch | celery_worker/match_event_service.py:226-236 | With the service's handler map, a qualifier with a hashable id makes exactly the expected card images and then one lookup of its name. The images are yellow for 31 and red for 33, only for card events outside `liveScore`, and only with a player. The qualifier contributes "<name> (<value>)". |
| MatchEventFacts.QualifierWithoutId | celery_worker/match_event_service.py:222-223 | A qualifier whose id is `None` is skipped: no call, no text. |
| MatchEventFacts.FloatCardId | celery_worker/match_event_service.py:226-232 | A qualifier id `31.0` of a card event with a known player asks for the yellow card image, then for the lookup. |
| MatchEventFacts.UnhashableIdRaises | celery_worker/match_event_service.py:226 | A list or dict qualifier id raises `TypeError` before any call. |
| MatchEventFacts.NoCardsOutsideCardEvents | celery_worker/match_event_service.py:227-232 | In a live-score event or one that is not a card event, no card image is asked for. |
| MatchEventFacts.NoCardsInLoop | celery_worker/match_event_service.py:219-232 | The same over the loop. |
| MatchEventFacts.QualifierSummary | celery_worker/match_event_service.py:215-237 | A list of dict qualifiers raises `TypeError` exactly when some id is a list or a dict. Otherwise the summary is the parts of the qualifiers with an id, in order, joined by ", ". |
| MatchEventFacts.SummaryLoop | celery_worker/match_event_service.py:218-236 | The loop over dict qualifiers yields exactly those parts. |
| MatchEventFacts.TwoQualifiers | celery_worker/match_event_service.py:219-237 | Two contributing qualifiers give both parts joined by ", " and both steps' calls, in order. |
| MatchEventFacts.TestFixtureSummary | celery_worker/test.py:24-27 | The card fixture (qualifiers 35 and 31, values "NULL") gives "<name 35> (NULL), <name 31> (NULL)". Its calls are: lookup 35, the yellow card image when the event's player is known, then lookup 31. |
| MatchEventFacts.TestFixtureUnknownNames | celery_worker/match_event_service.py:234-237 | When Directus finds nothing, that summary is "Unknown (NULL), Unknown (NULL)". |
| FeatureFlags.IsEnabled | utils/feature_flags.py:8-9 | No contract of its own. Its meaning is stated by `UnsetVariable` (the default when unset), `CaseOfValueIrrelevant` (case of the value), `OnlyOwnKeyMatters` (reads only its key) and `NamedFlagsReadOwnVariable` ("yes"/"TRUE" on, "on" off). |
| FeatureFlags.UnsetVariable | utils/feature_flags.py:8-9 | An absent key gives the default. |
| FeatureFlags.CaseOfValueIrrelevant | utils/feature_flags.py:9 | A value and its lower-case form give the same answer. |
| FeatureFlags.OnlyOwnKeyMatters | utils/feature_flags.py:5-9 | The answer depends only on the key's own entry. |
| FeatureFlags.NamedFlagsReadOwnVariable | utils/feature_flags.py:11-45 | For each of the nine flags: off when its own variable is unset, on for "yes" and "TRUE", off for "on", and unchanged by any other variable. |
| FeedClient.Classify | websocket-opta.py:54-76 | The branches in their order. `is_authorised` and `not_authorised` are recognised exactly by the outlet's `msg`. A non-dict message raises. |
| FeedClient.FirstStop | websocket-opta.py:48-70 | The position of the first frame that ends the loop: every earlier frame lets it continue. |
| FeedClient.Dispatch | websocket-opta.py:48-81 | No contract of its own. `DispatchFacts`, `DispatchLog`, `DispatchSent` and `DispatchEnd` state what it logs, what it sends and how it ends, for every frame sequence. |
| FeedClient.DispatchFacts | websocket-opta.py:48-76 | The loop logs every frame it reads, in order, up to and including the one it stops on. It sends one subscription per `is_authorised` frame before that point. It ends as that frame says, or cleanly. |
| FeedClient.DispatchLog | websocket-opta.py:48-52 | The log part of that statement. |
| FeedClient.DispatchSent | websocket-opta.py:54-65 | The subscription part of that statement. |
| FeedClient.DispatchEnd | websocket-opta.py:67-81 | The ending part of that statement. |
| FeedClient.SessionRun | websocket-opta.py:33-81 | No contract of its own. `CredentialFirst`, `SubscriptionPerAuthorisation` and `DefaultSubscription` state the handshake and the frames sent. `SddpClient.Connect` is proved equal to it. |
| FeedClient.CredentialFirst | websocket-opta.py:40-46 | The first frame sent is the outlet credential. A failed connection sends and logs nothing. |
| FeedClient.RejectionStops | websocket-opta.py:67-70 | A `not_authorised` frame that is reached is the last one read. Nothing answers it, and the session ends rejected. |
| FeedClient.SubscriptionPerAuthorisation | websocket-opta.py:54-65 | When no frame stops the loop: the credential, then exactly one subscription per `is_authorised` frame, and every frame logged. |
| FeedClient.Precedence | websocket-opta.py:72-76 | Live updates and other frames are logged and neither send nor stop. |
| FeedClient.AuthorisationBeforeContent | websocket-opta.py:54-72 | A frame carrying both `is_authorised` and live data counts as the authorisation. |
| FeedClient.SddpClient.AppendToJsonFile | websocket-opta.py:18-30 | The message list grows by exactly the timestamped entry, and the file is rewritten with the whole list. |
| FeedClient.SddpClient.ReceiveFrame | websocket-opta.py:48-76 | One frame: logged first, answered by its reply unless it stops the loop, and the stop reason given. |
| FeedClient.SddpClient.Connect | websocket-opta.py:33-81 | With the defaults `feeds=["matchEvent"]` and `include_opta_id=True`, the log, the frames sent and the end are those of `SessionRun`. The credential goes out before any frame is read, and a failed connection sends and logs nothing. |
| FeedClient.DefaultSubscription | websocket-opta.py:33-64 | With the defaults, an authorisation is answered by subscribing the fixture to `["matchEvent"]` with `optaId` true. |
| FeedClient.SddpClient.ReadFrames | websocket-opta.py:48-81 | The loop logs, sends and ends exactly as `Dispatch` of the frames says. |
| Lineup.HexDigit | from_base_images.py:22 | A hex digit has a value below 16 and is never whitespace, `#`, `_` or a sign. |
| Lineup.ParseHex | from_base_images.py:22 | `int(text, 16)` fails only with `ValueError`. |
| Lineup.Slice | from_base_images.py:22 | Python slicing past the end is shortened, never an error. |
| Lineup.EmptyIsNoNumber | from_base_images.py:22 | `int('', 16)` raises. |
| Lineup.ParseTwoDigits | from_base_images.py:22 | Two hex digits parse to their byte value. |
| Lineup.MinusOne | from_base_images.py:22 | `int('-1', 16)` is -1. |
| Lineup.Byte | from_base_images.py:22 | A pair of hex digits is a value in 0..255. |
| Lineup.DropHash | from_base_images.py:21 | Stripping the `#` leaves the digits. |
| Lineup.LongFormChecked | from_base_images.py:21-22 | `#RRGGBB` gives the three pairs' byte values. |
| Lineup.LongFormColor | from_base_images.py:17-22 | The same for `hex_to_rgb` itself. |
| Lineup.HexToRgb | from_base_images.py:17-22 | A colour comes out only when the stripped text has the `#` shape of length 4 or 7. Every failure is a `ValueError`. `ShapeRequired`, `LongFormColor`, `ShortFormAlwaysRaises` and `SignedComponents` give the details. |
| Lineup.ShapeRequired | from_base_images.py:18-20 | A stripped text that does not start with `#` or does not have length 4 or 7 raises `ValueError("Invalid hex color: ...")`. |
| Lineup.ShortFormChecked | from_base_images.py:21-22 | After the guard, a length-4 text always raises. |
| Lineup.ShortFormAlwaysRaises | from_base_images.py:17-22 | `hex_to_rgb` of any text that strips to a length-4 shape raises. |
| Lineup.ShortFormRefused | from_base_images.py:17-22 | `#abc` raises as written, while the expanded reading accepts it. |
| Lineup.SignedChecked | from_base_images.py:21-22 | The slices of `#-1-1-1` parse as -1 each. |
| Lineup.SignedComponents | from_base_images.py:17-22 | `hex_to_rgb("#-1-1-1")` returns (-1, -1, -1). |
| Lineup.HexToRgbExpanded | from_base_images.py:17-22 | The intended reading succeeds exactly on `#` plus 3 or 6 hex digits, and always returns components in 0..255. |
| Lineup.ExpandedAgreesOnLongForm | from_base_images.py:17-22 | On the six-digit form it agrees with the code as written. |
| Lineup.ShortFormExpands | from_base_images.py:17-22 | `#rgb` reads as `#rrggbb`. |
| Lineup.Generated | from_base_images.py:74-76 | Generated positions are numbered 1..n in coordinate order. |
| Lineup.FormationPositions | from_base_images.py:64-87 | A line-up has at least 11 positions, and every failure is a `ValueError`. `SelectionPrecedence` and `PositionsKeepShape` state which positions and how they are flipped. |
| Lineup.SelectionPrecedence | from_base_images.py:66-76 | Explicit positions win. Otherwise a known formation gives its generated positions, and an unknown one raises. |
| Lineup.PositionsKeepShape | from_base_images.py:79-87 | A result has at least 11 positions. It keeps their count, order, numbers and `x`, and changes `y` to `1.0 - y` exactly when flipped. |
| Lineup.TooFewRaise | from_base_images.py:79-82 | Fewer than 11 positions raise. |
| Lineup.FlipTwice | from_base_images.py:84-86 | Flipping twice restores the positions. |
| Lineup.FlipVertical | from_base_images.py:84-86 | The array in place becomes `Flipped` of what it held. |
| Lineup.NewPositions | from_base_images.py:73-75 | A new list of the formation's positions, numbered from 1 in coordinate order. |
| Lineup.SelectArray | from_base_images.py:66-76 | The list worked on is the configured one when there is one, and otherwise a new one built from the formation. An unknown formation raises, with the selection function's error. |
| Lineup.GetFormationPositions | from_base_images.py:64-87 | The returned positions and the error are those of `FormationPositions`. Explicit positions are returned as the same array (flipped in place). Nothing changes on a raise or without the flip. |
| Lineup.PasteCentered | from_base_images.py:135-142 | The offset centres the overlay, leaving at most one pixel more on the far side. |
| Lineup.CreateFieldWithLayers | from_base_images.py:25-61 | A field is built exactly when the colour parses, and a refused colour gives its own error. `FieldOffsets` states the layout. |
| Lineup.FieldOffsets | from_base_images.py:25-61 | The canvas is twice the stripes. The stripes sit at (0, 0). The lines are centred, at the difference of the original sizes. The fill is the parsed colour, opaque. |
| Lineup.LayoutOffsets | from_base_images.py:31-53 | The same for a known colour. |
| Lineup.FieldNeedsColor | from_base_images.py:32 | A colour `hex_to_rgb` refuses makes the field raise the same error. |
| ImageService.ProcessGoalEvents | image_processor/image_service.py:22-34 | On success, home and away scorers are the goal events of `localteam` and `visitorteam`, in order. A non-iterable input raises `TypeError`. A non-dict event raises `AttributeError`. |
| ImageService.ScorersAppend | image_processor/image_service.py:24-33 | Scorers of a concatenation are the concatenation of scorers, so relative order is kept. |
| ImageService.ScorersFromGoals | image_processor/image_service.py:25-33 | Every scorer comes from a goal event of that team and carries its `@player` and `@minute`. |
| ImageService.ScorersBounded | image_processor/image_service.py:25-33 | There are no more scorers than goal events. |
| ImageService.SanitizeFilename | image_processor/image_service.py:48-49 | The length is kept, and every character is a word character or `-`. |
| ImageService.SanitizeKeepsSafe | image_processor/image_service.py:48-49 | A safe character is kept, any other becomes `_`. |
| ImageService.SanitizeIdempotent | image_processor/image_service.py:48-49 | Sanitising twice equals sanitising once. |
| ImageService.PrepareHtmlOutput | image_processor/image_service.py:190-222 | Succeeds exactly when `IMAGE_OUTPUT_DIR` is set. It writes the HTML to the directory under the file name with `.png` replaced by `.html`, and returns the image path. |
| ImageService.CardConfig | image_processor/image_service.py:62-72 | Succeeds exactly when both card URLs and the picture template are set. Saving is on exactly when the flag lower-cases to "true". |
| ImageService.GenerateCardsHtml | image_processor/image_service.py:61-113 | A page comes out only with the configuration complete and a red or yellow card. It is saved exactly when saving is on. |
| ImageService.Card | image_processor/image_service.py:74-78 | Only red and yellow cards give a page. |
| ImageService.CardOfColor | image_processor/image_service.py:78-113 | The page is saved exactly when saving is on. |
| ImageService.SaveCard | image_processor/image_service.py:105-113 | The page comes back unchanged, saved or not. It is saved exactly when saving is on, and without saving there is always a result. |
| ImageService.CardChecksInOrder | image_processor/image_service.py:67-76 | The checks run in order: card URLs, then the picture template, then the colour, each with its own message. |
| ImageService.CardContents | image_processor/image_service.py:78-113 | The page is the chosen colour's style plus the body. The body has the picture template with every `{{22.photo}}` filled (photo default "") and the name (default "Unknown"). Without saving, that page is the result, with nothing saved. With saving, a non-text name raises `TypeError` and a missing `IMAGE_OUTPUT_DIR` raises `ValueError`. A text name and a set directory give a saved result. Either way, a result is that same page. |
| ImageService.CardSaved | image_processor/image_service.py:105-111 | A saved page goes to `IMAGE_OUTPUT_DIR/<safe name>_<colour>_card_<time>.html`, and the file holds the returned page. |
| ImageService.SaveCardSaved | image_processor/image_service.py:105-111 | The same for the save step alone: a saved file has a text name and a set directory, and it holds the page it was given. |
| ImageService.FilenameHasNoPng | image_processor/image_service.py:108 | That file name has no `.png` for the path step to replace. |
| ImageService.SaveNeedsLiteralTrue | image_processor/image_service.py:62 | "1" and "yes" switch the feature flag on but do not make this function save. |
| ImageService.ScoreParts | image_processor/image_service.py:120-121 | The split succeeds exactly when the stripped score has a `-`. |
| ImageService.ScoreRoundTrip | image_processor/image_service.py:120-121 | `[home-away]` splits back into home and away. |
| ImageService.StripBrackets | image_processor/image_service.py:120 | Stripping `[]` removes exactly the outer brackets. |
| ImageService.SplitOnce | image_processor/image_service.py:120 | Text with one `-` splits into the two sides. |
| ImageService.DateIso | image_processor/image_service.py:147-148 | Succeeds exactly when the date has two dots. |
| ImageService.DateRoundTrip | image_processor/image_service.py:147-148 | `d.m.y` becomes `y-mm-ddT<time>Z`, with day and month zero-padded to width 2. |
| ImageService.Pad2 | image_processor/image_service.py:148 | Two characters, ending with the digits. |
| ImageService.ZFillPads | image_processor/image_service.py:148 | `zfill(2)` pads one or two digits that way. |
| ImageService.SplitThree | image_processor/image_service.py:147 | `a.b.c` unpacks into its three parts. |
| HtmlGenerator.New | image_processor/html_generator_service.py:13-19 | Construction succeeds exactly when `PLAYER_IMAGE_URL` is set, and otherwise raises its message. The card URLs may be empty. |
| HtmlGenerator.GetPlayerImageUrl | image_processor/html_generator_service.py:21-22 | No contract of its own. `PlayerImageUrlFilled` states the replacement of `{{22.photo}}`. |
| HtmlGenerator.PlayerImageUrlFilled | image_processor/html_generator_service.py:21-22 | A template with one `{{22.photo}}` gets the photo in that spot. A template without it is used unchanged. |
| HtmlGenerator.BuildHtml | image_processor/html_generator_service.py:24-37 | No contract of its own. `BuildHtmlEmbeds` states that the page holds the CSS, the URL and the name, and `GoalContents` and `CardsChecksInOrder` state the pages built with it. |
| HtmlGenerator.BuildHtmlEmbeds | image_processor/html_generator_service.py:24-37 | The page contains the CSS, the image URL and the player name. |
| HtmlGenerator.GenerateGoalHtml | image_processor/html_generator_service.py:47-69 | A page comes out only with both templates and the photo set. It is saved exactly when asked. |
| HtmlGenerator.GoalChecksInOrder | image_processor/html_generator_service.py:53-58 | The checks run in order: team template, then `GOAL_TEMPLATE_URL`, then photo, each with its message. |
| HtmlGenerator.GoalContents | image_processor/html_generator_service.py:47-69 | The page uses the goal template with every `{{9.goal_template}}` replaced by the team template, the filled picture URL, and the name or "Unknown". The save request is labelled "goal". |
| HtmlGenerator.GenerateCardsHtml | image_processor/html_generator_service.py:71-95 | A page comes out only for red or yellow with both card URLs set. It is saved exactly when asked. |
| HtmlGenerator.CardsChecksInOrder | image_processor/html_generator_service.py:73-89 | The colour is checked before the URLs. Red takes the red template, yellow the yellow one. The page is built from them. |
| HtmlGenerator.CardCheckOrdersDiffer | image_processor/html_generator_service.py:73-78 | With no card URLs and a bad colour, the two card generators raise different errors. |
| Directus.New | directus/directus_service.py:25-35 | Raises `AttributeError` exactly when no base URL is given and `DIRECTUS_BASE_URL` is unset. The base URL kept never ends in `/`. |
| Directus.GetItemsRequest | directus/directus_service.py:37-54 | The URL is the items URL of the entity, and the query is `Query(p)`. |
| Directus.Query | directus/directus_service.py:39-54 | At most six keys are sent. `QueryParameters`, `QueryKey` and `QueryValues` state which keys and what values. |
| Directus.EntryKeys | directus/directus_service.py:41-54 | Each optional entry is present exactly when its parameter is truthy. The aggregate entry needs both the type and the field. |
| Directus.QueryKey | directus/directus_service.py:39-54 | A key is in the query exactly when one of those entries holds it. |
| Directus.QueryParameters | directus/directus_service.py:41-54 | `filter`, `limit`, `sort`, `fields` and `groupBy[]` appear exactly when truthy, so `limit=0` and "" are left out. `aggregate[<type>]` appears when both parts are set. There are at most six entries. |
| Directus.QueryValues | directus/directus_service.py:41-45 | `filter` is the JSON text of the filter dict, and `limit` is the limit. |
| Directus.GetEventQualifierByOptaId | directus/directus_service.py:60-68 | A record comes back exactly when the server returns rows for the qualifier query, and it is the first of them (`results[0]`). |
| Directus.QualifierFirstRow | directus/directus_service.py:60-68 | The lookup answers with the first row the service returns for `GET <base>/items/opta_event_qualifiers` with `filter={"opta_id": {"_eq": <id>}}` and `limit=1`, and with `None` when no row comes back. |
| Directus.QualifierLookup | directus/directus_service.py:60-68 | The lookup the pipeline uses is that function. |
| Directus.QualifierQuery | directus/directus_service.py:62-66 | The query is `filter` = `{"opta_id": {"_eq": <id>}}` as JSON text and `limit` = 1. |
| Directus.QualifierFilterText | directus/directus_service.py:64 | The JSON text of that filter. |
| Directus.TrailingSlashesRemoved | directus/directus_service.py:31-38 | Any number of trailing `/` on the base URL is removed before `/items/<entity>`. |

## Left out

- Logging, `print`, and the `DEBUG_MODE` dump of the message: they change nothing the model states.
- The random 4.5-7.5 second pause is the `Delay` call: its length is floating point and random.
- The current date in the archive file name, the arrival time of a feed frame, and the `time.strftime` stamp of a saved card are parameters (the clock).
- Time-zone conversion and `strftime` formatting in `format_date_and_time`: only the ISO string assembly is modelled.
- `generate_cards_image`, `generate_goal_image`, `get_event_type_by_opta_id`, `get_team_by_opta_id`, `get_player_by_opta_id` and `PerformFeedsService.get_match_stats` are functions of their argument (`MatchEvents.Catalog`): their modules are not part of this model. The same holds for `GoogleSheetService.append_row`, which is the `AppendRow` call.
- The Directus HTTP call (`httpx.get`, `raise_for_status`, `["data"]`) is a `Server` function from URL and query to the records returned.
- The websocket transport, `asyncio` and the decoding of frames are the `Inbound` sequence. Text that is not JSON is `Garbled`, and a connection closed with an error is `Closed`.
- Pixel work with PIL (canvas creation, resizing, compositing, `draw_players` with its fonts and float coordinates, the final downscale) is left out. Only sizes, offsets and the fill colour are modelled.
- `Lineup.FlipVertical`: `1.0 - y` is computed on real numbers, not on binary floating point.
- `generate_css_goal_and_cards` (image_processor/utils.py) is a function parameter `css`. The CSS text is not part of this model.
- `HtmlGeneratorService._save_to_disk`, and the `prepare_html_output` and `sanitize_filename` it imports from image_processor/utils.py, are not part of this model. A save is a `SaveRequest` naming the page, the player name and the label.
- The temporary-file branch of `prepare_html_output` (`use_temp_html=True`) is not modelled: the card page always calls it with `False`. `Path` normalisation of the directory is not modelled either. The path is the directory, `/` and the file name.
- Strings are sequences of characters. `lower()`, `strip()`, the regular-expression class `\w` and the digits `int(text, 16)` accepts are modelled on ASCII. Non-ASCII letters and digits are treated as non-word characters, and `int` does not accept non-ASCII decimal digits such as '٣' here. Unicode case mappings are not modelled.
- Python floats are carried as the text Python prints for them. They are used for truthiness and for comparisons with integer ids: `MatchEvents.IntKey` reads a float written as digits and `.0` (`31.0 == 31`). There is no float arithmetic.
- IntKey: a float written in exponent form (`1e+16`, for magnitudes of at least 10^16) stands for no integer. No id the service compares with is that large.
- The messages of the `ValueError`s raised by the Python runtime itself are not modelled: `int(text, 16)`, unpacking a date into three names, and `json.loads` on text that is not JSON. These errors are `RuntimeValueError`, which has an empty message. Messages the repository writes itself are modelled word for word.
- `generate_game_status_html`, `generate_half_and_full_time_html` and `generate_fixture_html` are modelled only for the score split and the date string. Their HTML is fixed markup around the data.

## Findings

| source | as written | input that shows it | evidently intended | confidence | as-written member | corrected member |
|---|---|---|---|---|---|---|
| from_base_images.py:19-22 | The guard accepts the 4-character short form, but the slices `[0:2]`, `[2:4]`, `[4:6]` of its three digits leave the third empty, and `int('', 16)` raises `ValueError`. | `hex_to_rgb("#abc")` | `#rgb` read as `#rrggbb`, as in CSS | high (not executed) | Lineup.ShortFormRefused | Lineup.ShortFormExpands |
| from_base_images.py:21-22 | `int(..., 16)` accepts a sign, so a signed pair passes the guard and gives a negative component. | `hex_to_rgb("#-1-1-1")` returns (-1, -1, -1) | only hex digits accepted, components in 0..255 | high (not executed) | Lineup.SignedComponents | Lineup.HexToRgbExpanded |
