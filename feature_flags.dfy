/** Feature flags read from the process environment (utils/feature_flags.py). A flag is on
    when its variable, lower-cased, is "1", "true" or "yes"; an unset variable falls back to
    the default, written out with `str(bool)` first. */
module FeatureFlags {
  import opened Text

  /** The environment: variable name to value. Evaluating a flag only reads it. */
  type Env = map<string, string>

  /** `os.getenv(key, default)`. */
  function GetEnv(env: Env, key: string, default: string): string
  {
    if key in env then env[key] else default
  }

  const EnabledValues: set<string> := {"1", "true", "yes"}

  /** `str(b)` for a bool. */
  function BoolText(b: bool): string
  {
    if b then "True" else "False"
  }

  /** `FeatureFlags.is_enabled(key, default)`. */
  function IsEnabled(env: Env, key: string, default: bool := false): bool
  {
    Lower(if key in env then env[key] else BoolText(default)) in EnabledValues
  }

  function EnableGoalImages(env: Env): bool { IsEnabled(env, "ENABLE_GOAL_IMAGES") }
  function SaveToGsheet(env: Env): bool { IsEnabled(env, "SAVE_TO_GSHEET") }
  function SaveLivescoreEvents(env: Env): bool { IsEnabled(env, "SAVE_LIVESCORE_EVENTS") }
  function SaveHtmlToDisk(env: Env): bool { IsEnabled(env, "SAVE_HTML_TO_DISK") }
  function UsePlaywright(env: Env): bool { IsEnabled(env, "USE_PLAYWRIGHT") }
  function UseWkhtmltopdf(env: Env): bool { IsEnabled(env, "USE_WKHTMLTOPDF") }
  function LogFullEventData(env: Env): bool { IsEnabled(env, "LOG_FULL_EVENT_DATA") }
  function DebugMode(env: Env): bool { IsEnabled(env, "DEBUG_MODE") }
  function UseMongoDb(env: Env): bool { IsEnabled(env, "USE_MONGO_DB") }

  /** An unset variable gives the default: "False" lower-cases to "false", "True" to "true". */
  lemma {:induction false} UnsetVariable(env: Env, key: string, default: bool)
    requires key !in env
    ensures IsEnabled(env, key, default) == default
  {
    if default {
      assert Lower("True") == "true";
    } else {
      var l := Lower("False");
      assert l[0] == 'f';
      assert |l| == 5;
    }
  }

  /** A value and its lower-cased form give the same flag. */
  lemma {:induction false} CaseOfValueIrrelevant(env: Env, key: string, v: string)
    ensures IsEnabled(env[key := v], key) == IsEnabled(env[key := Lower(v)], key)
  {
    LowerIdempotent(v);
  }

  /** A flag reads its own variable and no other. */
  lemma {:induction false} OnlyOwnKeyMatters(env1: Env, env2: Env, key: string, default: bool)
    requires (key in env1) == (key in env2)
    requires key in env1 ==> env1[key] == env2[key]
    ensures IsEnabled(env1, key, default) == IsEnabled(env2, key, default)
  {
  }

  /** The nine properties of `FeatureFlags`, one per variable. */
  datatype Flag =
    | EnableGoalImagesFlag | SaveToGsheetFlag | SaveLivescoreEventsFlag | SaveHtmlToDiskFlag
    | UsePlaywrightFlag | UseWkhtmltopdfFlag | LogFullEventDataFlag | DebugModeFlag | UseMongoDbFlag

  /** The variable each property reads. */
  function Variable(f: Flag): string
  {
    match f
    case EnableGoalImagesFlag => "ENABLE_GOAL_IMAGES"
    case SaveToGsheetFlag => "SAVE_TO_GSHEET"
    case SaveLivescoreEventsFlag => "SAVE_LIVESCORE_EVENTS"
    case SaveHtmlToDiskFlag => "SAVE_HTML_TO_DISK"
    case UsePlaywrightFlag => "USE_PLAYWRIGHT"
    case UseWkhtmltopdfFlag => "USE_WKHTMLTOPDF"
    case LogFullEventDataFlag => "LOG_FULL_EVENT_DATA"
    case DebugModeFlag => "DEBUG_MODE"
    case UseMongoDbFlag => "USE_MONGO_DB"
  }

  /** The value of a property. */
  function Named(env: Env, f: Flag): bool
  {
    match f
    case EnableGoalImagesFlag => EnableGoalImages(env)
    case SaveToGsheetFlag => SaveToGsheet(env)
    case SaveLivescoreEventsFlag => SaveLivescoreEvents(env)
    case SaveHtmlToDiskFlag => SaveHtmlToDisk(env)
    case UsePlaywrightFlag => UsePlaywright(env)
    case UseWkhtmltopdfFlag => UseWkhtmltopdf(env)
    case LogFullEventDataFlag => LogFullEventData(env)
    case DebugModeFlag => DebugMode(env)
    case UseMongoDbFlag => UseMongoDb(env)
  }

  /** Every named flag is off when its own variable is unset, whatever else the environment holds,
      is on when that variable says so, and follows only that variable. */
  lemma {:induction false} NamedFlagsReadOwnVariable(env: Env, f: Flag, other: string, v: string)
    ensures Variable(f) !in env ==> !Named(env, f)
    ensures Named(env[Variable(f) := "yes"], f) && Named(env[Variable(f) := "TRUE"], f)
    ensures !Named(env[Variable(f) := "on"], f)
    ensures other != Variable(f) ==> Named(env[other := v], f) == Named(env, f)
  {
    var key := Variable(f);
    assert Named(env, f) == IsEnabled(env, key);
    assert Named(env[key := "yes"], f) == IsEnabled(env[key := "yes"], key);
    assert Named(env[key := "TRUE"], f) == IsEnabled(env[key := "TRUE"], key);
    assert Named(env[key := "on"], f) == IsEnabled(env[key := "on"], key);
    assert Named(env[other := v], f) == IsEnabled(env[other := v], key);
    if key !in env { UnsetVariable(env, key, false); }
    assert Lower("yes") == "yes";
    assert Lower("TRUE") == "true";
    assert Lower("on") == "on";
    if other != key { OnlyOwnKeyMatters(env[other := v], env, key, false); }
  }
}
