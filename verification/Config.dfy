/** The application configuration: every setting is taken from the
    constructor's properties, else from the process environment, and the
    required ones make construction throw when neither has a non-empty value. */
module Config {
  import opened Wrappers
  import Records

  /** Constructor properties or `process.env`: a key maps to its string. */
  type Source = map<string, string>

  /** `source.KEY` as `||` sees it: a missing key and the empty string are
      both falsy. */
  function Present(src: Source, key: string): (r: Option<string>)
    ensures r.Some? <==> key in src && src[key] != ""
    ensures r.Some? ==> r.value == src[key]
  {
    if key in src && src[key] != "" then Some(src[key]) else None
  }

  /** `props?.KEY || process.env.KEY`: the constructor's value wins when it is
      non-empty. */
  function Pick(props: Source, env: Source, key: string): (r: Option<string>)
    ensures r.Some? ==> r.value != ""
    ensures Present(props, key).Some? ==> r == Present(props, key)
    ensures Present(props, key).None? ==> r == Present(env, key)
  {
    match Present(props, key)
    case Some(v) => Some(v)
    case None => Present(env, key)
  }

  /** A required setting: `... || (() => { throw new Error("KEY is not set") })()`. */
  function Require(props: Source, env: Source, key: string): (r: Result<string>)
    ensures r.Ok? <==> Pick(props, env, key).Some?
    ensures r.Ok? ==> r.value == Pick(props, env, key).value
    ensures r.Err? ==> r.error == key + " is not set"
  {
    match Pick(props, env, key)
    case Some(v) => Ok(v)
    case None => Err(key + " is not set")
  }

  datatype Settings = Settings(
    dbName: string,
    mongodbUri: string,
    openrouterApiKey: string,
    openaiApiKey: string,
    anthropicApiKey: string,
    googleGenerativeAiApiKey: string,
    arcadeApiKey: Option<string>,
    arcadeUserId: string,
    googleSheetsSpreadsheetId: string)

  /** The required settings, in the order the constructor resolves them. */
  const RequiredKeys: seq<string> :=
    ["DB_NAME", "MONGODB_URI", "OPENROUTER_API_KEY", "ARCADE_USER_ID", "GOOGLE_SHEETS_SPREADSHEET_ID"]

  /** `new Config(props)` with `process.env` as `env`: each required
      setting is its picked value; `OPENAI_API_KEY` falls back to `""`; the
      Anthropic and Google keys are read from the environment only; and
      `ARCADE_API_KEY` stays undefined when absent. */
  function Load(props: Source, env: Source): (r: Result<Settings>)
    ensures r.Ok? ==> && Pick(props, env, "DB_NAME") == Some(r.value.dbName)
                      && Pick(props, env, "MONGODB_URI") == Some(r.value.mongodbUri)
                      && Pick(props, env, "OPENROUTER_API_KEY") == Some(r.value.openrouterApiKey)
                      && Pick(props, env, "ARCADE_USER_ID") == Some(r.value.arcadeUserId)
                      && Pick(props, env, "GOOGLE_SHEETS_SPREADSHEET_ID") == Some(r.value.googleSheetsSpreadsheetId)
    ensures r.Ok? ==> && r.value.openaiApiKey == Pick(props, env, "OPENAI_API_KEY").GetOr("")
                      && r.value.anthropicApiKey == Present(env, "ANTHROPIC_API_KEY").GetOr("")
                      && r.value.googleGenerativeAiApiKey == Present(env, "GOOGLE_GENERATIVE_AI_API_KEY").GetOr("")
                      && r.value.arcadeApiKey == Pick(props, env, "ARCADE_API_KEY")
  {
    var dbName :- Require(props, env, "DB_NAME");
    var mongodbUri :- Require(props, env, "MONGODB_URI");
    var openrouterApiKey :- Require(props, env, "OPENROUTER_API_KEY");
    var openaiApiKey := Pick(props, env, "OPENAI_API_KEY").GetOr("");
    var anthropicApiKey := Present(env, "ANTHROPIC_API_KEY").GetOr("");
    var googleGenerativeAiApiKey := Present(env, "GOOGLE_GENERATIVE_AI_API_KEY").GetOr("");
    var arcadeApiKey := Pick(props, env, "ARCADE_API_KEY");
    var arcadeUserId :- Require(props, env, "ARCADE_USER_ID");
    var googleSheetsSpreadsheetId :- Require(props, env, "GOOGLE_SHEETS_SPREADSHEET_ID");
    Ok(Settings(dbName, mongodbUri, openrouterApiKey, openaiApiKey, anthropicApiKey,
                googleGenerativeAiApiKey, arcadeApiKey, arcadeUserId, googleSheetsSpreadsheetId))
  }

  predicate Missing(props: Source, env: Source, i: nat)
    requires i < |RequiredKeys|
  {
    Pick(props, env, RequiredKeys[i]).None?
  }

  /** Construction fails exactly when a required setting is missing, and the
      error names the first missing one in declaration order. */
  lemma LoadFailsOnFirstMissing(props: Source, env: Source)
    ensures Load(props, env).Ok? <==> forall i :: 0 <= i < |RequiredKeys| ==> !Missing(props, env, i)
    ensures Load(props, env).Err? ==>
              exists i :: 0 <= i < |RequiredKeys| && Missing(props, env, i)
                          && (forall j :: 0 <= j < i ==> !Missing(props, env, j))
                          && Load(props, env).error == RequiredKeys[i] + " is not set"
  {
    var r := Load(props, env);
    if Missing(props, env, 0) {
      assert r.error == RequiredKeys[0] + " is not set";
    } else if Missing(props, env, 1) {
      assert r.error == RequiredKeys[1] + " is not set";
    } else if Missing(props, env, 2) {
      assert r.error == RequiredKeys[2] + " is not set";
    } else if Missing(props, env, 3) {
      assert r.error == RequiredKeys[3] + " is not set";
    } else if Missing(props, env, 4) {
      assert r.error == RequiredKeys[4] + " is not set";
    } else {
      assert r.Ok?;
    }
  }

  /** The Anthropic and Google keys cannot be supplied through the
      constructor: such properties are ignored. */
  lemma EnvOnlyKeysIgnoreProps(props: Source, env: Source, v: string, w: string)
    ensures Load(props["ANTHROPIC_API_KEY" := v]["GOOGLE_GENERATIVE_AI_API_KEY" := w], env) == Load(props, env)
  {
    var p := props["ANTHROPIC_API_KEY" := v]["GOOGLE_GENERATIVE_AI_API_KEY" := w];
    assert Pick(p, env, "DB_NAME") == Pick(props, env, "DB_NAME");
    assert Pick(p, env, "MONGODB_URI") == Pick(props, env, "MONGODB_URI");
    assert Pick(p, env, "OPENROUTER_API_KEY") == Pick(props, env, "OPENROUTER_API_KEY");
    assert Pick(p, env, "OPENAI_API_KEY") == Pick(props, env, "OPENAI_API_KEY");
    assert Pick(p, env, "ARCADE_API_KEY") == Pick(props, env, "ARCADE_API_KEY");
    assert Pick(p, env, "ARCADE_USER_ID") == Pick(props, env, "ARCADE_USER_ID");
    assert Pick(p, env, "GOOGLE_SHEETS_SPREADSHEET_ID") == Pick(props, env, "GOOGLE_SHEETS_SPREADSHEET_ID");
  }

  /** An empty constructor value is the same as none. */
  lemma EmptyPropCountsAsMissing(props: Source, env: Source, key: string)
    ensures Pick(props[key := ""], env, key) == Pick(map k | k in props && k != key :: props[k], env, key)
  {
  }

  /** The names `aiAPIKeys` returns, in order. */
  const AiKeyNames: seq<string> :=
    ["OPENROUTER_API_KEY", "OPENAI_API_KEY", "ANTHROPIC_API_KEY", "GOOGLE_GENERATIVE_AI_API_KEY"]

  /** `aiAPIKeys`: exactly the four language-model keys, with their
      resolved values. */
  function AiApiKeys(s: Settings): (r: Records.Record)
    ensures Records.Keys(r) == AiKeyNames
    ensures Records.Lookup(r, "OPENROUTER_API_KEY") == Some(s.openrouterApiKey)
    ensures Records.Lookup(r, "OPENAI_API_KEY") == Some(s.openaiApiKey)
    ensures Records.Lookup(r, "ANTHROPIC_API_KEY") == Some(s.anthropicApiKey)
    ensures Records.Lookup(r, "GOOGLE_GENERATIVE_AI_API_KEY") == Some(s.googleGenerativeAiApiKey)
  {
    var r := [("OPENROUTER_API_KEY", s.openrouterApiKey), ("OPENAI_API_KEY", s.openaiApiKey),
              ("ANTHROPIC_API_KEY", s.anthropicApiKey),
              ("GOOGLE_GENERATIVE_AI_API_KEY", s.googleGenerativeAiApiKey)];
    assert Records.Keys(r) == AiKeyNames;
    r
  }

  /** `NPM_PATH` */
  const NpmPath := "npm"
}
