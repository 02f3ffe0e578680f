/** The text-building parts of the image service (image_processor/image_service.py): splitting
    goal events between the two teams, making a player name safe for a file name, assembling the
    card document and checking its configuration first, and taking apart the score and date
    strings of a match. Rendering the documents to pictures is not part of this model. */
module ImageService {
  import opened Python
  import opened Text
  import opened FeatureFlags

  // ---------------------------------------------------------------------------------------------
  // Goal scorers

  /** `{"player_name": ..., "minute": ...}`. */
  datatype Scorer = Scorer(playerName: Value, minute: Value)

  /** `{"home_team_scorers": [...], "away_team_scorers": [...]}`. */
  datatype GoalScorers = GoalScorers(home: seq<Scorer>, away: seq<Scorer>)

  const HomeTeam: string := "localteam"
  const AwayTeam: string := "visitorteam"

  /** A goal event of `team`. */
  predicate ScoresFor(e: Value, team: string)
  {
    e.Obj? && Get(e.fields, "@type") == Str("goal") && Get(e.fields, "@team") == Str(team)
  }

  function ScorerOf(e: Fields): Scorer
  {
    Scorer(Get(e, "@player"), Get(e, "@minute"))
  }

  /** The scorers of `team`, one per goal event of that team, in the order of the events. */
  function Scorers(events: seq<Value>, team: string): seq<Scorer>
    decreases |events|
  {
    if |events| == 0 then []
    else
      var last := events[|events| - 1];
      Scorers(events[..|events| - 1], team) + (if ScoresFor(last, team) then [ScorerOf(last.fields)] else [])
  }

  /** `event.get` only exists on a dict. */
  predicate AllDicts(events: seq<Value>)
  {
    forall k :: 0 <= k < |events| ==> events[k].Obj?
  }

  /** `process_goal_events`: every event is asked for its type, and a goal goes to the home list
      for `localteam`, to the away list for `visitorteam` and nowhere otherwise. An event that
      is not a dict raises `AttributeError`; a value that cannot be iterated raises `TypeError`. */
  method ProcessGoalEvents(events: Value) returns (r: Result<GoalScorers>)
    ensures Iterate(events).Raise? ==> r == Raise(TypeError)
    ensures Iterate(events).Ok? ==>
              var items := Iterate(events).value;
              (r.Ok? <==> AllDicts(items)) &&
              (r.Raise? ==> r.exc == AttributeError) &&
              (r.Ok? ==> r.value == GoalScorers(Scorers(items, HomeTeam), Scorers(items, AwayTeam)))
  {
    var it := Iterate(events);
    if it.Raise? {
      return Raise(TypeError);
    }
    var items := it.value;
    var home: seq<Scorer> := [];
    var away: seq<Scorer> := [];
    var i := 0;
    assert HomeTeam[0] != AwayTeam[0];
    while i < |items|
      invariant 0 <= i <= |items|
      invariant AllDicts(items[..i])
      invariant home == Scorers(items[..i], HomeTeam) && away == Scorers(items[..i], AwayTeam)
    {
      var event := items[i];
      if !event.Obj? {
        return Raise(AttributeError);
      }
      DictsStep(items, i);
      ScorersStep(items, i, HomeTeam);
      ScorersStep(items, i, AwayTeam);
      AppendEmpty(home);
      AppendEmpty(away);
      if Get(event.fields, "@type") == Str("goal") {
        var scorer := ScorerOf(event.fields);
        if Get(event.fields, "@team") == Str(HomeTeam) {
          home := home + [scorer];
        } else if Get(event.fields, "@team") == Str(AwayTeam) {
          away := away + [scorer];
        }
      }
      i := i + 1;
    }
    assert items[..i] == items;
    return Ok(GoalScorers(home, away));
  }

  lemma {:induction false} DictsStep(items: seq<Value>, i: nat)
    requires i < |items| && AllDicts(items[..i]) && items[i].Obj?
    ensures AllDicts(items[..i + 1])
  {
    assert forall k :: 0 <= k < i ==> items[..i + 1][k] == items[..i][k];
  }

  /** One more event adds its scorer to the list of its team, if it is a goal. */
  lemma {:induction false} ScorersStep(items: seq<Value>, i: nat, team: string)
    requires i < |items|
    ensures Scorers(items[..i + 1], team) ==
            Scorers(items[..i], team) + (if ScoresFor(items[i], team) then [ScorerOf(items[i].fields)] else [])
  {
    assert items[..i + 1][..i] == items[..i];
  }

  /** The scorers of a run of events followed by another are those of the first run followed by
      those of the second: the relative order of goals is kept. */
  lemma {:induction false} ScorersAppend(a: seq<Value>, b: seq<Value>, team: string)
    ensures Scorers(a + b, team) == Scorers(a, team) + Scorers(b, team)
    decreases |b|
  {
    if |b| == 0 {
      assert a + b == a;
    } else {
      var b' := b[..|b| - 1];
      assert (a + b)[..|a + b| - 1] == a + b';
      assert (a + b)[|a + b| - 1] == b[|b| - 1];
      ScorersAppend(a, b', team);
    }
  }

  /** Each scorer comes from a goal event of that team and carries its player and minute. */
  lemma {:induction false} ScorersFromGoals(events: seq<Value>, team: string, j: nat)
    requires j < |Scorers(events, team)|
    ensures exists k :: 0 <= k < |events| && ScoresFor(events[k], team) &&
                        Scorers(events, team)[j] == ScorerOf(events[k].fields)
    decreases |events|
  {
    var init := events[..|events| - 1];
    var last := events[|events| - 1];
    if j < |Scorers(init, team)| {
      ScorersFromGoals(init, team, j);
      var k :| 0 <= k < |init| && ScoresFor(init[k], team) && Scorers(init, team)[j] == ScorerOf(init[k].fields);
      assert init[k] == events[k];
    } else {
      assert ScoresFor(last, team);
    }
  }

  /** The number of goal events (dicts whose type is "goal"). */
  function GoalCount(events: seq<Value>): nat
    decreases |events|
  {
    if |events| == 0 then 0
    else
      var last := events[|events| - 1];
      GoalCount(events[..|events| - 1]) + (if last.Obj? && Get(last.fields, "@type") == Str("goal") then 1 else 0)
  }

  /** Home and away scorers together are at most the goal events: a goal counts once, and a goal
      of another team not at all. */
  lemma {:induction false} ScorersBounded(events: seq<Value>)
    ensures |Scorers(events, HomeTeam)| + |Scorers(events, AwayTeam)| <= GoalCount(events)
    decreases |events|
  {
    if |events| > 0 {
      ScorersBounded(events[..|events| - 1]);
    }
  }

  // ---------------------------------------------------------------------------------------------
  // File names

  /** A character of the class `\w`, ASCII letters, digits and the underscore. */
  predicate WordChar(c: char)
  {
    'a' <= c <= 'z' || 'A' <= c <= 'Z' || '0' <= c <= '9' || c == '_'
  }

  /** A character `sanitize_filename` keeps. */
  predicate SafeChar(c: char)
  {
    WordChar(c) || c == '-'
  }

  /** `sanitize_filename`: every character outside `[\w-]` becomes `_`. */
  function SanitizeFilename(name: string): (r: string)
    ensures |r| == |name|
    ensures forall k :: 0 <= k < |r| ==> SafeChar(r[k])
  {
    seq(|name|, k requires 0 <= k < |name| => if SafeChar(name[k]) then name[k] else '_')
  }

  /** The characters kept are exactly the safe ones, and the rest turn into `_`. */
  lemma {:induction false} SanitizeKeepsSafe(name: string, k: nat)
    requires k < |name|
    ensures SafeChar(name[k]) <==> SanitizeFilename(name)[k] == name[k]
    ensures !SafeChar(name[k]) ==> SanitizeFilename(name)[k] == '_'
  {
  }

  /** A name that is already safe is unchanged, so sanitising twice is sanitising once. */
  lemma {:induction false} SanitizeIdempotent(name: string)
    ensures SanitizeFilename(SanitizeFilename(name)) == SanitizeFilename(name)
  {
    var once := SanitizeFilename(name);
    assert forall k :: 0 <= k < |once| ==> SafeChar(once[k]);
  }

  // ---------------------------------------------------------------------------------------------
  // Card documents

  /** A file written under `IMAGE_OUTPUT_DIR`: its path and its text. */
  datatype SavedFile = SavedFile(path: string, html: string)

  /** The card document and, when saving is switched on, the file it was written to. */
  datatype CardsHtml = CardsHtml(html: string, saved: Option<SavedFile>)

  const PhotoPlaceholder: string := "{{22.photo}}"

  const OutputDirUnset: string := "❌ IMAGE_OUTPUT_DIR not set in environment variables."

  /** `prepare_html_output(html, filename, use_temp_html=False)`: the HTML file goes into
      `IMAGE_OUTPUT_DIR` under the file name with `.png` replaced by `.html`; the picture path
      keeps the file name. An unset or empty directory raises `ValueError`. */
  function PrepareHtmlOutput(env: Env, html: string, filename: string): (r: Result<(SavedFile, string)>)
    ensures r.Ok? <==> GetEnv(env, "IMAGE_OUTPUT_DIR", "") != ""
    ensures r.Ok? ==> r.value.0.html == html
    ensures r.Ok? ==> r.value.0.path == GetEnv(env, "IMAGE_OUTPUT_DIR", "") + "/" + ReplaceAll(filename, ".png", ".html")
    ensures r.Ok? ==> r.value.1 == GetEnv(env, "IMAGE_OUTPUT_DIR", "") + "/" + filename
  {
    var dir := GetEnv(env, "IMAGE_OUTPUT_DIR", "");
    if dir == "" then Raise(ValueError(OutputDirUnset))
    else Ok((SavedFile(dir + "/" + ReplaceAll(filename, ".png", ".html"), html), dir + "/" + filename))
  }

  /** The fixed text of the card document, between the parts it interpolates. */
  const BodyBeforeUrl: string := "\n        <div class=\"overlay\">\n            <img class=\"player-image\" src=\""
  const BodyBeforeAlt: string := "\" alt=\""
  const BodyBeforeName: string := "\">\n            <div class=\"player-name\">"
  const BodyEnd: string := "</div>\n        </div>\n    "
  const DocumentBeforeCss: string := "\n        <html>\n        <head>\n            <style>"
  const DocumentBeforeBody: string := "</style>\n        </head>\n        <body>\n            "
  const DocumentEnd: string := "\n        </body>\n        </html>\n    "

  /** The card document around the player's picture and name. */
  function CardBody(imageUrl: string, name: string): string
  {
    BodyBeforeUrl + imageUrl + BodyBeforeAlt + name + BodyBeforeName + name + BodyEnd
  }

  function CardDocument(css: string, body: string): string
  {
    DocumentBeforeCss + css + DocumentBeforeBody + body + DocumentEnd
  }

  /** The name of the saved card file. */
  function CardFilename(name: string, color: string, timestamp: string): string
  {
    SanitizeFilename(name) + "_" + color + "_card_" + timestamp + ".html"
  }

  /** The environment `generate_cards_html` reads, once both card URLs and the picture template
      are known to be set. */
  datatype CardSettings = CardSettings(saveToDisk: bool, redUrl: string, yellowUrl: string, playerImageTemplate: string)

  /** The configuration part of `generate_cards_html`: the card URLs are checked first, then the
      picture template; `SAVE_HTML_TO_DISK` counts only when it reads "true" in any case. */
  function CardConfig(env: Env): (r: Result<CardSettings>)
    ensures r.Ok? <==> GetEnv(env, "RED_CARD_TEMPLATE_URL", "") != "" && GetEnv(env, "YELLOW_CARD_TEMPLATE_URL", "") != "" &&
                       GetEnv(env, "PLAYER_IMAGE_URL", "") != ""
    ensures r.Ok? ==> r.value.saveToDisk == (Lower(GetEnv(env, "SAVE_HTML_TO_DISK", "false")) == "true")
  {
    var redUrl := GetEnv(env, "RED_CARD_TEMPLATE_URL", "");
    var yellowUrl := GetEnv(env, "YELLOW_CARD_TEMPLATE_URL", "");
    var playerImageTemplate := GetEnv(env, "PLAYER_IMAGE_URL", "");
    if redUrl == "" || yellowUrl == "" then
      Raise(ValueError("Card template URLs (RED_CARD_TEMPLATE_URL, YELLOW_CARD_TEMPLATE_URL) must be set."))
    else if playerImageTemplate == "" then Raise(ValueError("PLAYER_IMAGE_URL must be set."))
    else Ok(CardSettings(Lower(GetEnv(env, "SAVE_HTML_TO_DISK", "false")) == "true", redUrl, yellowUrl, playerImageTemplate))
  }

  /** `generate_cards_html`: the configuration, then the colour are checked; the colour chooses
      the template, the photo is put into the picture template, and the document is saved when
      asked to. `css` is the style sheet built around a template URL and `timestamp` the current
      time, as text. */
  function GenerateCardsHtml(env: Env, data: Fields, css: string -> string, timestamp: string): (r: Result<CardsHtml>)
    ensures r.Ok? ==> CardConfig(env).Ok? && Get(data, "card_color") in {Str("red"), Str("yellow")}
    ensures r.Ok? ==> (r.value.saved.Some? <==> CardConfig(env).value.saveToDisk)
  {
    match CardConfig(env)
    case Raise(e) => Raise(e)
    case Ok(settings) => Card(settings, env, data, css, timestamp)
  }

  /** The part of `generate_cards_html` after the configuration is checked. */
  function Card(settings: CardSettings, env: Env, data: Fields, css: string -> string, timestamp: string): (r: Result<CardsHtml>)
    ensures r.Ok? ==> Get(data, "card_color") in {Str("red"), Str("yellow")}
    ensures r.Ok? ==> (r.value.saved.Some? <==> settings.saveToDisk)
  {
    var cardColor := Get(data, "card_color");
    if cardColor != Str("red") && cardColor != Str("yellow") then
      Raise(ValueError("Invalid card_color. Expected 'red' or 'yellow'."))
    else
      var templateUrl := if cardColor == Str("red") then settings.redUrl else settings.yellowUrl;
      CardOfColor(settings, env, data, css(templateUrl), cardColor.s, timestamp)
  }

  /** The card document of a checked colour, whose template gave the style `style`: the photo
      is put into the picture template before the document is built and handed on to be saved. */
  function CardOfColor(settings: CardSettings, env: Env, data: Fields, style: string, color: string, timestamp: string)
    : (r: Result<CardsHtml>)
    ensures r.Ok? ==> (r.value.saved.Some? <==> settings.saveToDisk)
  {
    var photo := GetOr(data, "player_photo_url", Str(""));
    var name := GetOr(data, "player_name", Str("Unknown"));
    if !photo.Str? then Raise(TypeError)
    else
      var html := CardDocument(style, CardBody(ReplaceAll(settings.playerImageTemplate, PhotoPlaceholder, photo.s), PyStr(name)));
      SaveCard(settings.saveToDisk, env, name, html, color, timestamp)
  }

  /** The end of `generate_cards_html`: the document is saved when asked to, under a name made
      from the player's name, which must then be a string, and is returned either way. */
  function SaveCard(saveToDisk: bool, env: Env, name: Value, html: string, color: string, timestamp: string)
    : (r: Result<CardsHtml>)
    ensures r.Ok? ==> r.value.html == html && (r.value.saved.Some? <==> saveToDisk)
    ensures !saveToDisk ==> r.Ok?
  {
    if !saveToDisk then Ok(CardsHtml(html, None))
    else if !name.Str? then Raise(TypeError)
    else
      match PrepareHtmlOutput(env, html, CardFilename(name.s, color, timestamp))
      case Raise(e) => Raise(e)
      case Ok(paths) => Ok(CardsHtml(html, Some(paths.0)))
  }

  /** The configuration is checked before the data, in a fixed order: missing card URLs win over
      a missing picture template, which wins over a bad colour. */
  lemma {:induction false} CardChecksInOrder(env: Env, data: Fields, css: string -> string, timestamp: string)
    ensures GetEnv(env, "RED_CARD_TEMPLATE_URL", "") == "" || GetEnv(env, "YELLOW_CARD_TEMPLATE_URL", "") == "" ==>
              GenerateCardsHtml(env, data, css, timestamp) ==
              Raise(ValueError("Card template URLs (RED_CARD_TEMPLATE_URL, YELLOW_CARD_TEMPLATE_URL) must be set."))
    ensures GetEnv(env, "RED_CARD_TEMPLATE_URL", "") != "" && GetEnv(env, "YELLOW_CARD_TEMPLATE_URL", "") != "" &&
            GetEnv(env, "PLAYER_IMAGE_URL", "") == "" ==>
              GenerateCardsHtml(env, data, css, timestamp) == Raise(ValueError("PLAYER_IMAGE_URL must be set."))
    ensures GetEnv(env, "RED_CARD_TEMPLATE_URL", "") != "" && GetEnv(env, "YELLOW_CARD_TEMPLATE_URL", "") != "" &&
            GetEnv(env, "PLAYER_IMAGE_URL", "") != "" && Get(data, "card_color") !in {Str("red"), Str("yellow")} ==>
              GenerateCardsHtml(env, data, css, timestamp) == Raise(ValueError("Invalid card_color. Expected 'red' or 'yellow'."))
  {
  }

  /** With the configuration complete and a red or yellow card, the document uses the style of
      that colour's template, the picture template with the photo put in (an empty photo when
      none is given) and the player's name ("Unknown" when none is given). It is the result
      whether or not it is saved. Saving needs a string name and `IMAGE_OUTPUT_DIR`. */
  lemma {:induction false} CardContents(env: Env, data: Fields, css: string -> string, timestamp: string)
    requires GetEnv(env, "RED_CARD_TEMPLATE_URL", "") != "" && GetEnv(env, "YELLOW_CARD_TEMPLATE_URL", "") != ""
    requires GetEnv(env, "PLAYER_IMAGE_URL", "") != ""
    requires Get(data, "card_color") in {Str("red"), Str("yellow")}
    requires GetOr(data, "player_photo_url", Str("")).Str?
    ensures var template := if Get(data, "card_color") == Str("red") then env["RED_CARD_TEMPLATE_URL"]
                            else env["YELLOW_CARD_TEMPLATE_URL"];
            var url := ReplaceAll(env["PLAYER_IMAGE_URL"], PhotoPlaceholder, GetOr(data, "player_photo_url", Str("")).s);
            var doc := CardDocument(css(template), CardBody(url, PyStr(GetOr(data, "player_name", Str("Unknown")))));
            var r := GenerateCardsHtml(env, data, css, timestamp);
            var name := GetOr(data, "player_name", Str("Unknown"));
            (Lower(GetEnv(env, "SAVE_HTML_TO_DISK", "false")) != "true" ==> r == Ok(CardsHtml(doc, None))) &&
            (Lower(GetEnv(env, "SAVE_HTML_TO_DISK", "false")) == "true" ==>
               (!name.Str? ==> r == Raise(TypeError)) &&
               (name.Str? && GetEnv(env, "IMAGE_OUTPUT_DIR", "") == "" ==> r == Raise(ValueError(OutputDirUnset))) &&
               (name.Str? && GetEnv(env, "IMAGE_OUTPUT_DIR", "") != "" ==> r.Ok? && r.value.saved.Some?)) &&
            (r.Ok? ==> r.value.html == doc)
  {
    var settings, color := CardConfig(env).value, Get(data, "card_color");
    var name := GetOr(data, "player_name", Str("Unknown"));
    var style := css(if color == Str("red") then settings.redUrl else settings.yellowUrl);
    var url := ReplaceAll(settings.playerImageTemplate, PhotoPlaceholder, GetOr(data, "player_photo_url", Str("")).s);
    assert GenerateCardsHtml(env, data, css, timestamp) ==
           SaveCard(settings.saveToDisk, env, name, CardDocument(style, CardBody(url, PyStr(name))), color.s, timestamp);
  }

  /** A saved card file is named after the sanitised player name, the colour and the time, and
      sits in `IMAGE_OUTPUT_DIR`. The time stamp is digits and dashes, as `time.strftime`
      writes it. */
  lemma {:induction false} CardSaved(env: Env, data: Fields, css: string -> string, timestamp: string)
    requires forall k :: 0 <= k < |timestamp| ==> SafeChar(timestamp[k])
    requires GenerateCardsHtml(env, data, css, timestamp).Ok?
    requires GenerateCardsHtml(env, data, css, timestamp).value.saved.Some?
    ensures var saved := GenerateCardsHtml(env, data, css, timestamp).value;
            var name := GetOr(data, "player_name", Str("Unknown"));
            name.Str? && GetEnv(env, "IMAGE_OUTPUT_DIR", "") != "" &&
            saved.saved.value == SavedFile(env["IMAGE_OUTPUT_DIR"] + "/" + CardFilename(name.s, Get(data, "card_color").s, timestamp), saved.html)
  {
    var settings, color := CardConfig(env).value, Get(data, "card_color");
    var name := GetOr(data, "player_name", Str("Unknown"));
    var style := css(if color == Str("red") then settings.redUrl else settings.yellowUrl);
    var url := ReplaceAll(settings.playerImageTemplate, PhotoPlaceholder, GetOr(data, "player_photo_url", Str("")).s);
    var html := CardDocument(style, CardBody(url, PyStr(name)));
    assert GenerateCardsHtml(env, data, css, timestamp) == SaveCard(settings.saveToDisk, env, name, html, color.s, timestamp);
    SaveCardSaved(settings.saveToDisk, env, name, html, color.s, timestamp);
    FilenameHasNoPng(name.s, color.s, timestamp);
    ReplaceAbsent(CardFilename(name.s, color.s, timestamp), ".png", ".html");
  }

  lemma {:induction false} SaveCardSaved(saveToDisk: bool, env: Env, name: Value, html: string, color: string, timestamp: string)
    requires SaveCard(saveToDisk, env, name, html, color, timestamp).Ok?
    requires SaveCard(saveToDisk, env, name, html, color, timestamp).value.saved.Some?
    ensures name.Str? && GetEnv(env, "IMAGE_OUTPUT_DIR", "") != "" &&
            SaveCard(saveToDisk, env, name, html, color, timestamp).value.saved.value ==
              SavedFile(env["IMAGE_OUTPUT_DIR"] + "/" + ReplaceAll(CardFilename(name.s, color, timestamp), ".png", ".html"), html)
  {
    var out := PrepareHtmlOutput(env, html, CardFilename(name.s, color, timestamp));
    assert SaveCard(saveToDisk, env, name, html, color, timestamp) == Ok(CardsHtml(html, Some(out.value.0)));
  }

  /** A card file name holds a single dot, the one before "html", so it carries no `.png` and
      `prepare_html_output` keeps it as it is. */
  lemma {:induction false} FilenameHasNoPng(name: string, color: string, timestamp: string)
    requires color in {"red", "yellow"}
    requires forall k :: 0 <= k < |timestamp| ==> SafeChar(timestamp[k])
    ensures !Occurs(CardFilename(name, color, timestamp), ".png")
  {
    var stem := SanitizeFilename(name) + "_" + color + "_card_" + timestamp;
    assert forall k :: 0 <= k < |stem| ==> SafeChar(stem[k]);
    var f := stem + ".html";
    assert f == CardFilename(name, color, timestamp);
    forall i: nat | i <= |f| ensures !OccursAt(f, ".png", i) {
      if i + 4 <= |f| {
        if i < |stem| {
          assert f[i] == stem[i] && SafeChar(f[i]);
          assert f[i..i + 4][0] == f[i];
        } else {
          assert f[i + 1] == ".html"[i + 1 - |stem|];
          assert f[i..i + 4][1] == f[i + 1];
        }
      }
    }
  }

  /** Without `SAVE_HTML_TO_DISK` set to "true" nothing is written, even where the flag parser
      of utils/feature_flags.py would read the value as on ("1", "yes"). */
  lemma {:induction false} SaveNeedsLiteralTrue(env: Env, data: Fields, css: string -> string, timestamp: string)
    requires GetEnv(env, "SAVE_HTML_TO_DISK", "false") in {"1", "yes"}
    ensures SaveHtmlToDisk(env)
    ensures GenerateCardsHtml(env, data, css, timestamp).Ok? ==> GenerateCardsHtml(env, data, css, timestamp).value.saved.None?
  {
    assert Lower("1") == "1";
    assert Lower("yes") == "yes";
  }

  // ---------------------------------------------------------------------------------------------
  // Score and date strings

  /** `score.strip("[]").split("-")` and its first two parts; fewer than two raise `IndexError`. */
  function ScoreParts(score: string): (r: Result<(string, string)>)
    ensures r.Ok? <==> '-' in Strip(score, {'[', ']'})
  {
    var parts := Split(Strip(score, {'[', ']'}), '-');
    SplitPieces(Strip(score, {'[', ']'}), '-');
    CountCharIn(Strip(score, {'[', ']'}), '-');
    if |parts| < 2 then Raise(IndexError) else Ok((parts[0], parts[1]))
  }

  lemma {:induction false} CountCharIn(s: string, c: char)
    ensures CountChar(s, c) > 0 <==> c in s
    decreases |s|
  {
    if |s| > 0 {
      CountCharIn(s[1..], c);
      assert s == [s[0]] + s[1..];
    }
  }

  /** A score written as `[home-away]`, neither side holding a dash or a bracket, gives back its
      two sides. */
  lemma {:induction false} ScoreRoundTrip(home: string, away: string)
    requires '-' !in home && '-' !in away
    requires '[' !in home && ']' !in home && '[' !in away && ']' !in away
    ensures ScoreParts("[" + home + "-" + away + "]") == Ok((home, away))
  {
    var inner := home + "-" + away;
    assert "[" + home + "-" + away + "]" == "[" + inner + "]";
    assert inner[0] == (if |home| > 0 then home[0] else '-');
    assert inner[|inner| - 1] == (if |away| > 0 then away[|away| - 1] else '-');
    StripBrackets(inner);
    SplitOnce(home, away);
    assert Split(Strip("[" + inner + "]", {'[', ']'}), '-') == [home, away];
  }

  lemma {:induction false} StripBrackets(inner: string)
    requires |inner| > 0
    requires inner[0] != '[' && inner[0] != ']' && inner[|inner| - 1] != '[' && inner[|inner| - 1] != ']'
    ensures Strip("[" + inner + "]", {'[', ']'}) == inner
  {
    AppendAssoc("[", inner, "]");
    DropOpenBracket(inner + "]");
    DropCloseBracket(inner);
  }

  lemma {:induction false} DropOpenBracket(t: string)
    requires |t| > 0 && t[0] != '[' && t[0] != ']'
    ensures LStrip("[" + t, {'[', ']'}) == t
  {
    assert ("[" + t)[1..] == t;
    assert LStrip(t, {'[', ']'}) == t;
  }

  lemma {:induction false} DropCloseBracket(inner: string)
    requires |inner| > 0 && inner[|inner| - 1] != '[' && inner[|inner| - 1] != ']'
    ensures RStrip(inner + "]", {'[', ']'}) == inner
  {
    assert (inner + "]")[..|inner|] == inner;
    assert RStrip(inner, {'[', ']'}) == inner;
  }

  /** Splitting `a-b` on the dash, when neither side holds one, gives `[a, b]`. */
  lemma {:induction false} SplitOnce(a: string, b: string)
    requires '-' !in a && '-' !in b
    ensures Split(a + "-" + b, '-') == [a, b]
    decreases |a|
  {
    if |a| == 0 {
      assert a + "-" + b == "-" + b;
      assert ("-" + b)[1..] == b;
      SplitNone(b, '-');
    } else {
      SplitOnce(a[1..], b);
      assert (a + "-" + b)[1..] == a[1..] + "-" + b;
      assert [a[0]] + a[1..] == a;
    }
  }

  /** A text without the separator splits into itself alone. */
  lemma {:induction false} SplitNone(s: string, sep: char)
    requires sep !in s
    ensures Split(s, sep) == [s]
    decreases |s|
  {
    if |s| > 0 {
      SplitNone(s[1..], sep);
      assert [s[0]] + s[1..] == s;
    }
  }

  /** The date part of `format_date_and_time`: `d.m.y` becomes `y-mm-ddT<time>Z`, month and day
      padded with zeros to two characters; a date without exactly two dots raises `ValueError`. */
  function DateIso(date: string, time: string): (r: Result<string>)
    ensures r.Ok? <==> CountChar(date, '.') == 2
  {
    var parts := Split(date, '.');
    SplitPieces(date, '.');
    if |parts| != 3 then Raise(RuntimeValueError)
    else Ok(parts[2] + "-" + ZFill(parts[1], 2) + "-" + ZFill(parts[0], 2) + "T" + time + "Z")
  }

  /** Day and month of one or two digits come out as two digits, and the year is kept: the
      ISO text is the year, a dash, the padded month, a dash, the padded day. */
  lemma {:induction false} DateRoundTrip(day: string, month: string, year: string, time: string)
    requires 1 <= |day| <= 2 && 1 <= |month| <= 2
    requires forall k :: 0 <= k < |day| ==> '0' <= day[k] <= '9'
    requires forall k :: 0 <= k < |month| ==> '0' <= month[k] <= '9'
    requires '.' !in year
    ensures var r := DateIso(day + "." + month + "." + year, time);
            r.Ok? &&
            r.value == year + "-" + Pad2(month) + "-" + Pad2(day) + "T" + time + "Z" &&
            |Pad2(month)| == 2 && |Pad2(day)| == 2
  {
    var date := day + "." + month + "." + year;
    assert '.' !in day by { assert forall k :: 0 <= k < |day| ==> day[k] != '.'; }
    assert '.' !in month by { assert forall k :: 0 <= k < |month| ==> month[k] != '.'; }
    SplitThree(day, month, year);
    assert DateIso(date, time) == Ok(year + "-" + ZFill(month, 2) + "-" + ZFill(day, 2) + "T" + time + "Z");
    ZFillPads(month);
    ZFillPads(day);
  }

  /** A one-digit number with a leading zero; two digits as they are. */
  function Pad2(digits: string): (r: string)
    requires 1 <= |digits| <= 2
    ensures |r| == 2 && r[|r| - |digits|..] == digits
  {
    if |digits| == 1 then "0" + digits else digits
  }

  /** `zfill(2)` on one or two digits is the two-digit padding. */
  lemma {:induction false} ZFillPads(digits: string)
    requires 1 <= |digits| <= 2
    requires forall k :: 0 <= k < |digits| ==> '0' <= digits[k] <= '9'
    ensures ZFill(digits, 2) == Pad2(digits)
  {
    if |digits| == 1 {
      assert digits[0] != '+' && digits[0] != '-';
      assert seq(1, _ => '0') == "0";
    }
  }

  lemma {:induction false} SplitThree(a: string, b: string, c: string)
    requires '.' !in a && '.' !in b && '.' !in c
    ensures Split(a + "." + b + "." + c, '.') == [a, b, c]
  {
    SplitDot(a, b + "." + c);
    SplitDot(b, c);
    SplitNone(c, '.');
    assert a + "." + b + "." + c == a + "." + (b + "." + c);
  }

  /** Splitting `a.rest` on the dot, `a` holding none, is `a` followed by the split of `rest`. */
  lemma {:induction false} SplitDot(a: string, rest: string)
    requires '.' !in a
    ensures Split(a + "." + rest, '.') == [a] + Split(rest, '.')
    decreases |a|
  {
    if |a| == 0 {
      assert a + "." + rest == "." + rest;
      assert ("." + rest)[1..] == rest;
    } else {
      SplitDot(a[1..], rest);
      assert (a + "." + rest)[1..] == a[1..] + "." + rest;
      assert [a[0]] + a[1..] == a;
    }
  }
}
