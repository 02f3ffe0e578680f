/** The goal and card documents of `HtmlGeneratorService` (image_processor/html_generator_service.py).
    The service reads its picture template and card URLs from the environment once; each
    document is a template with placeholders filled in, checked field by field first. Writing
    the document to disk goes through `sanitize_filename` and `prepare_html_output`, which that
    file imports from a module that does not define them; the model records the request. */
module HtmlGenerator {
  import opened Python
  import opened Text
  import opened FeatureFlags
  import ImageService

  const PhotoPlaceholder: string := "{{22.photo}}"
  const GoalPlaceholder: string := "{{9.goal_template}}"

  /** The settings read by `__init__`; none changes afterwards. */
  datatype HtmlGeneratorService = HtmlGeneratorService(playerImageTemplate: string, redCardUrl: string, yellowCardUrl: string)

  /** A request to `_save_to_disk`: the document, the player name and the tag naming the file. */
  datatype SaveRequest = SaveRequest(html: string, playerName: Value, tag: string)

  /** A document and the save it asks for, if any. */
  datatype Document = Document(html: string, save: Option<SaveRequest>)

  /** `HtmlGeneratorService()`: the picture template must be set; the card URLs are read as they
      are, empty or not. */
  function New(env: Env): (r: Result<HtmlGeneratorService>)
    ensures r.Ok? <==> GetEnv(env, "PLAYER_IMAGE_URL", "") != ""
    ensures r.Raise? ==> r.exc == ValueError("PLAYER_IMAGE_URL must be set.")
    ensures r.Ok? ==> r.value.playerImageTemplate == env["PLAYER_IMAGE_URL"] &&
                      r.value.redCardUrl == GetEnv(env, "RED_CARD_TEMPLATE_URL", "") &&
                      r.value.yellowCardUrl == GetEnv(env, "YELLOW_CARD_TEMPLATE_URL", "")
  {
    var template := GetEnv(env, "PLAYER_IMAGE_URL", "");
    if template == "" then Raise(ValueError("PLAYER_IMAGE_URL must be set."))
    else Ok(HtmlGeneratorService(template, GetEnv(env, "RED_CARD_TEMPLATE_URL", ""), GetEnv(env, "YELLOW_CARD_TEMPLATE_URL", "")))
  }

  /** `_get_player_image_url`: every `{{22.photo}}` of the template replaced by the photo URL. */
  function GetPlayerImageUrl(service: HtmlGeneratorService, photoUrl: string): string
  {
    ReplaceAll(service.playerImageTemplate, PhotoPlaceholder, photoUrl)
  }

  /** A template holding the placeholder once gets the photo at that spot and nothing else
      changed; a template without it is used as it is. */
  lemma {:induction false} PlayerImageUrlFilled(service: HtmlGeneratorService, photoUrl: string, before: string, after: string)
    ensures service.playerImageTemplate == before + PhotoPlaceholder + after &&
            (forall i: nat :: i != |before| ==> !OccursAt(before + PhotoPlaceholder + after, PhotoPlaceholder, i)) ==>
              GetPlayerImageUrl(service, photoUrl) == before + photoUrl + after
    ensures !Occurs(service.playerImageTemplate, PhotoPlaceholder) ==>
              GetPlayerImageUrl(service, photoUrl) == service.playerImageTemplate
  {
    if service.playerImageTemplate == before + PhotoPlaceholder + after &&
       (forall i: nat :: i != |before| ==> !OccursAt(before + PhotoPlaceholder + after, PhotoPlaceholder, i)) {
      ReplaceSinglePlaceholder(before, PhotoPlaceholder, after, photoUrl);
    }
    if !Occurs(service.playerImageTemplate, PhotoPlaceholder) {
      ReplaceAbsent(service.playerImageTemplate, PhotoPlaceholder, photoUrl);
    }
  }

  const BodyOpen: string := "\n            <div class=\"overlay\">\n                <img class=\"player-image\" src=\""
  const BodyAlt: string := "\" alt=\""
  const BodyName: string := "\">\n                <div class=\"player-name\">"
  const BodyClose: string := "</div>\n            </div>\n        "
  const DocOpen: string := "\n            <html>\n            <head><style>"
  const DocBody: string := "</style></head>\n            <body>"
  const DocClose: string := "</body>\n            </html>\n        "

  /** `_build_html`: the style sheet in the head, the player's picture and name in the body. */
  function BuildHtml(css: string, imageUrl: string, playerName: string): string
  {
    DocOpen + css + DocBody +
    (BodyOpen + imageUrl + BodyAlt + playerName + BodyName + playerName + BodyClose) +
    DocClose
  }

  /** `x` occurs in `a + x + b`. */
  lemma {:induction false} OccursBetween(a: string, x: string, b: string)
    ensures Occurs(a + x + b, x)
  {
    assert (a + x + b)[|a|..|a| + |x|] == x;
    assert OccursAt(a + x + b, x, |a|);
  }

  /** The document holds the style sheet, the picture URL and the player name. */
  lemma {:induction false} BuildHtmlEmbeds(css: string, imageUrl: string, playerName: string)
    ensures Occurs(BuildHtml(css, imageUrl, playerName), css)
    ensures Occurs(BuildHtml(css, imageUrl, playerName), imageUrl)
    ensures Occurs(BuildHtml(css, imageUrl, playerName), playerName)
  {
    Embeds(DocOpen, css, DocBody, BodyOpen, imageUrl, BodyAlt, playerName, BodyName, BodyClose, DocClose);
  }

  /** The interpolated parts of a document shaped like `_build_html`'s occur in it. */
  lemma {:induction false} Embeds(o: string, c: string, db: string, bo: string, u: string, ba: string, n: string, bn: string, bc: string, dc: string)
    ensures var doc := o + c + db + (bo + u + ba + n + bn + n + bc) + dc;
            Occurs(doc, c) && Occurs(doc, u) && Occurs(doc, n)
  {
    var doc := o + c + db + (bo + u + ba + n + bn + n + bc) + dc;
    assert doc == o + c + (db + (bo + u + ba + n + bn + n + bc) + dc);
    OccursBetween(o, c, db + (bo + u + ba + n + bn + n + bc) + dc);
    assert doc == (o + c + db + bo) + u + (ba + n + bn + n + bc + dc);
    OccursBetween(o + c + db + bo, u, ba + n + bn + n + bc + dc);
    assert doc == (o + c + db + bo + u + ba) + n + (bn + n + bc + dc);
    OccursBetween(o + c + db + bo + u + ba, n, bn + n + bc + dc);
  }

  /** `generate_goal_html`: the team template, then `GOAL_TEMPLATE_URL`, then the photo must be
      set; the team template goes into every `{{9.goal_template}}` of the goal template, whose
      style sheet `css` builds, and the document is saved as "goal" when asked to. */
  function GenerateGoalHtml(service: HtmlGeneratorService, env: Env, data: Fields, css: string -> string, saveToDisk: bool): (r: Result<Document>)
    ensures r.Ok? ==> Truthy(GetOr(data, "team_goal_template_url", Str(""))) && GetEnv(env, "GOAL_TEMPLATE_URL", "") != "" &&
                      Truthy(GetOr(data, "player_photo_url", Str("")))
    ensures r.Ok? ==> (r.value.save.Some? <==> saveToDisk)
  {
    var playerName := GetOr(data, "player_name", Str("Unknown"));
    var photo := GetOr(data, "player_photo_url", Str(""));
    var teamTemplate := GetOr(data, "team_goal_template_url", Str(""));
    var goalTemplate := GetEnv(env, "GOAL_TEMPLATE_URL", "");
    if !Truthy(teamTemplate) then Raise(ValueError("team_goal_template_url must be set."))
    else if goalTemplate == "" then Raise(ValueError("goal_template_url must be set."))
    else if !Truthy(photo) then Raise(ValueError("player_photo_url must be set."))
    else if !teamTemplate.Str? || !photo.Str? then Raise(TypeError)
    else
      var templateUrl := ReplaceAll(goalTemplate, GoalPlaceholder, teamTemplate.s);
      var html := BuildHtml(css(templateUrl), GetPlayerImageUrl(service, photo.s), PyStr(playerName));
      Ok(Document(html, if saveToDisk then Some(SaveRequest(html, playerName, "goal")) else None))
  }

  /** The checks of a goal document, in order. */
  lemma {:induction false} GoalChecksInOrder(service: HtmlGeneratorService, env: Env, data: Fields, css: string -> string, saveToDisk: bool)
    ensures !Truthy(GetOr(data, "team_goal_template_url", Str(""))) ==>
              GenerateGoalHtml(service, env, data, css, saveToDisk) == Raise(ValueError("team_goal_template_url must be set."))
    ensures Truthy(GetOr(data, "team_goal_template_url", Str(""))) && GetEnv(env, "GOAL_TEMPLATE_URL", "") == "" ==>
              GenerateGoalHtml(service, env, data, css, saveToDisk) == Raise(ValueError("goal_template_url must be set."))
    ensures Truthy(GetOr(data, "team_goal_template_url", Str(""))) && GetEnv(env, "GOAL_TEMPLATE_URL", "") != "" &&
            !Truthy(GetOr(data, "player_photo_url", Str(""))) ==>
              GenerateGoalHtml(service, env, data, css, saveToDisk) == Raise(ValueError("player_photo_url must be set."))
  {
  }

  /** With text values set, the goal document is built from the goal template with the team
      template put in, the picture template with the photo put in, and the player's name, or
      "Unknown" when it is missing. */
  lemma {:induction false} GoalContents(service: HtmlGeneratorService, env: Env, data: Fields, css: string -> string, saveToDisk: bool,
                     team: string, photo: string)
    requires GetOr(data, "team_goal_template_url", Str("")) == Str(team) && team != ""
    requires GetOr(data, "player_photo_url", Str("")) == Str(photo) && photo != ""
    requires GetEnv(env, "GOAL_TEMPLATE_URL", "") != ""
    ensures var html := BuildHtml(css(ReplaceAll(env["GOAL_TEMPLATE_URL"], GoalPlaceholder, team)),
                                  GetPlayerImageUrl(service, photo),
                                  PyStr(GetOr(data, "player_name", Str("Unknown"))));
            GenerateGoalHtml(service, env, data, css, saveToDisk) ==
            Ok(Document(html, if saveToDisk then Some(SaveRequest(html, GetOr(data, "player_name", Str("Unknown")), "goal")) else None))
  {
  }

  /** `generate_cards_html` of the service: the colour is checked first, then the card URLs read
      at construction; red takes the red template, yellow the yellow one; the photo defaults to
      none and the name to "Unknown"; the file label is `<colour>_card`. */
  function GenerateCardsHtml(service: HtmlGeneratorService, data: Fields, css: string -> string, saveToDisk: bool): (r: Result<Document>)
    ensures r.Ok? ==> Get(data, "card_color") in {Str("red"), Str("yellow")} && service.redCardUrl != "" && service.yellowCardUrl != ""
    ensures r.Ok? ==> (r.value.save.Some? <==> saveToDisk)
  {
    var cardColor := Get(data, "card_color");
    if cardColor != Str("red") && cardColor != Str("yellow") then
      Raise(ValueError("Invalid card_color. Expected 'red' or 'yellow'."))
    else if service.redCardUrl == "" || service.yellowCardUrl == "" then
      Raise(ValueError("Card template URLs must be set."))
    else
      var templateUrl := if cardColor == Str("red") then service.redCardUrl else service.yellowCardUrl;
      var playerName := GetOr(data, "player_name", Str("Unknown"));
      var photo := GetOr(data, "player_photo_url", Str(""));
      if !photo.Str? then Raise(TypeError)
      else
        var html := BuildHtml(css(templateUrl), GetPlayerImageUrl(service, photo.s), PyStr(playerName));
        Ok(Document(html, if saveToDisk then Some(SaveRequest(html, playerName, cardColor.s + "_card")) else None))
  }

  /** A bad colour is reported before missing card URLs, and red and yellow choose their own
      template. */
  lemma {:induction false} CardsChecksInOrder(service: HtmlGeneratorService, data: Fields, css: string -> string, saveToDisk: bool)
    ensures Get(data, "card_color") !in {Str("red"), Str("yellow")} ==>
              GenerateCardsHtml(service, data, css, saveToDisk) == Raise(ValueError("Invalid card_color. Expected 'red' or 'yellow'."))
    ensures Get(data, "card_color") in {Str("red"), Str("yellow")} && (service.redCardUrl == "" || service.yellowCardUrl == "") ==>
              GenerateCardsHtml(service, data, css, saveToDisk) == Raise(ValueError("Card template URLs must be set."))
    ensures Get(data, "card_color") in {Str("red"), Str("yellow")} && service.redCardUrl != "" && service.yellowCardUrl != "" &&
            GetOr(data, "player_photo_url", Str("")).Str? ==>
              var template := if Get(data, "card_color") == Str("red") then service.redCardUrl else service.yellowCardUrl;
              GenerateCardsHtml(service, data, css, saveToDisk).Ok? &&
              GenerateCardsHtml(service, data, css, saveToDisk).value.html ==
                BuildHtml(css(template), GetPlayerImageUrl(service, GetOr(data, "player_photo_url", Str("")).s),
                          PyStr(GetOr(data, "player_name", Str("Unknown"))))
  {
  }

  /** The two card generators check in opposite orders: with no card URLs configured and a bad
      colour, the image service complains about the URLs and this service about the colour. */
  lemma {:induction false} CardCheckOrdersDiffer(env: Env, data: Fields, css: string -> string, saveToDisk: bool, timestamp: string)
    requires GetEnv(env, "PLAYER_IMAGE_URL", "") != ""
    requires "RED_CARD_TEMPLATE_URL" !in env
    requires Get(data, "card_color") == Str("green")
    ensures New(env).Ok?
    ensures ImageService.GenerateCardsHtml(env, data, css, timestamp) ==
            Raise(ValueError("Card template URLs (RED_CARD_TEMPLATE_URL, YELLOW_CARD_TEMPLATE_URL) must be set."))
    ensures GenerateCardsHtml(New(env).value, data, css, saveToDisk) ==
            Raise(ValueError("Invalid card_color. Expected 'red' or 'yellow'."))
  {
    assert GetEnv(env, "RED_CARD_TEMPLATE_URL", "") == "";
    ImageService.CardChecksInOrder(env, data, css, timestamp);
    GreenRefused(env, data, css, saveToDisk);
  }

  lemma {:induction false} GreenRefused(env: Env, data: Fields, css: string -> string, saveToDisk: bool)
    requires GetEnv(env, "PLAYER_IMAGE_URL", "") != ""
    requires Get(data, "card_color") == Str("green")
    ensures New(env).Ok?
    ensures GenerateCardsHtml(New(env).value, data, css, saveToDisk) ==
            Raise(ValueError("Invalid card_color. Expected 'red' or 'yellow'."))
  {
    assert Str("green") != Str("red") && Str("green") != Str("yellow") by {
      assert |"green"| != |"red"| && |"green"| != |"yellow"|;
    }
    CardsChecksInOrder(New(env).value, data, css, saveToDisk);
  }
}
