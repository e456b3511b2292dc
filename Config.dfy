/** `config`: the settings read once from the process environment when the
    program starts. The environment is a map from variable names to values;
    loading `.env.local` into it is not part of this model. */
module Config {
  import opened Results

  type Env = map<string, string>

  function MissingMessage(key: string): string {
    "Missing required environment variable: " + key
  }

  /** A variable counts as set when it is present and not empty (`!value`). */
  predicate IsSet(env: Env, key: string) {
    key in env && env[key] != ""
  }

  /** `getEnvOrThrow`: the value of a set variable, or the error naming it. */
  function GetEnvOrThrow(env: Env, key: string): (r: Result<string>)
    ensures r.Ok? <==> IsSet(env, key)
    ensures r.Ok? ==> r.value == env[key] && r.value != ""
    ensures r.Err? ==> r.error == MissingMessage(key)
  {
    if IsSet(env, key) then Ok(env[key]) else Err(MissingMessage(key))
  }

  /** `getEnvOrDefault`: `??` falls back only when the variable is absent; an
      empty value is returned as it is. */
  function GetEnvOrDefault(env: Env, key: string, defaultValue: string): (r: string)
    ensures key in env ==> r == env[key]
    ensures key !in env ==> r == defaultValue
  {
    if key in env then env[key] else defaultValue
  }

  /** `getEnvBoolean`: absent gives the default; otherwise exactly `"true"`
      and `"1"` are true, and every other value (`""`, `"TRUE"`, `"yes"`) is
      false. */
  function GetEnvBoolean(env: Env, key: string, defaultValue: bool): (r: bool)
    ensures key !in env ==> r == defaultValue
    ensures key in env ==> (r <==> env[key] == "true" || env[key] == "1")
  {
    if key !in env then defaultValue else env[key] == "true" || env[key] == "1"
  }

  datatype FreshRssConfig = FreshRssConfig(useMock: bool, baseUrl: string, username: string, password: string)
  datatype BedrockConfig = BedrockConfig(region: string)
  datatype SesConfig = SesConfig(region: string, fromAddress: string, toAddress: string)
  datatype AppConfig = AppConfig(freshrss: FreshRssConfig, bedrock: BedrockConfig, ses: SesConfig)

  const DefaultBedrockRegion: string := "us-east-1"
  const DefaultSesRegion: string := "ap-northeast-1"

  const FreshRssKeys: seq<string> := ["FRESHRSS_BASE_URL", "FRESHRSS_USERNAME", "FRESHRSS_API_PASSWORD"]
  const SesKeys: seq<string> := ["SES_FROM_ADDRESS", "SES_TO_ADDRESS"]

  function UseMock(env: Env): bool {
    GetEnvBoolean(env, "USE_FRESHRSS_MOCK", false)
  }

  /** A FreshRSS setting: empty under the mock, required otherwise. */
  function FreshRssSetting(useMock: bool, env: Env, key: string): Result<string> {
    if useMock then Ok("") else GetEnvOrThrow(env, key)
  }

  /** The `config` object, evaluated field by field in the order the object
      literal lists them; the first missing variable aborts the load. */
  function LoadConfig(env: Env): (r: Result<AppConfig>)
    ensures r.Ok? ==> r.value.freshrss.useMock == UseMock(env)
    ensures r.Ok? && UseMock(env) ==>
      r.value.freshrss.baseUrl == "" && r.value.freshrss.username == "" && r.value.freshrss.password == ""
    ensures r.Ok? && !UseMock(env) ==>
      && IsSet(env, "FRESHRSS_BASE_URL") && r.value.freshrss.baseUrl == env["FRESHRSS_BASE_URL"]
      && IsSet(env, "FRESHRSS_USERNAME") && r.value.freshrss.username == env["FRESHRSS_USERNAME"]
      && IsSet(env, "FRESHRSS_API_PASSWORD") && r.value.freshrss.password == env["FRESHRSS_API_PASSWORD"]
    ensures r.Ok? ==>
      && r.value.bedrock.region == GetEnvOrDefault(env, "BEDROCK_REGION", DefaultBedrockRegion)
      && r.value.ses.region == GetEnvOrDefault(env, "SES_REGION", DefaultSesRegion)
      && IsSet(env, "SES_FROM_ADDRESS") && r.value.ses.fromAddress == env["SES_FROM_ADDRESS"]
      && IsSet(env, "SES_TO_ADDRESS") && r.value.ses.toAddress == env["SES_TO_ADDRESS"]
  {
    var useMock := UseMock(env);
    var baseUrl := FreshRssSetting(useMock, env, "FRESHRSS_BASE_URL");
    if baseUrl.Err? then Err(baseUrl.error) else
    var username := FreshRssSetting(useMock, env, "FRESHRSS_USERNAME");
    if username.Err? then Err(username.error) else
    var password := FreshRssSetting(useMock, env, "FRESHRSS_API_PASSWORD");
    if password.Err? then Err(password.error) else
    var bedrockRegion := GetEnvOrDefault(env, "BEDROCK_REGION", DefaultBedrockRegion);
    var sesRegion := GetEnvOrDefault(env, "SES_REGION", DefaultSesRegion);
    var fromAddress := GetEnvOrThrow(env, "SES_FROM_ADDRESS");
    if fromAddress.Err? then Err(fromAddress.error) else
    var toAddress := GetEnvOrThrow(env, "SES_TO_ADDRESS");
    if toAddress.Err? then Err(toAddress.error) else
    Ok(AppConfig(
      FreshRssConfig(useMock, baseUrl.value, username.value, password.value),
      BedrockConfig(bedrockRegion),
      SesConfig(sesRegion, fromAddress.value, toAddress.value)))
  }

  // ---------------------------------------------------------------------
  // Which variables are required
  // ---------------------------------------------------------------------

  /** The variables the load requires, in the order it reads them: the
      FreshRSS ones only without the mock, the SES addresses always. */
  function RequiredKeys(useMock: bool): seq<string> {
    (if useMock then [] else FreshRssKeys) + SesKeys
  }

  /** The first of `keys` that is not set. */
  function FirstUnset(env: Env, keys: seq<string>): (r: Option<string>)
    ensures r.Some? ==> r.value in keys && !IsSet(env, r.value)
    ensures r.None? <==> forall k :: k in keys ==> IsSet(env, k)
  {
    if keys == [] then None
    else if !IsSet(env, keys[0]) then Some(keys[0])
    else FirstUnset(env, keys[1..])
  }

  lemma FirstUnsetCons(env: Env, key: string, rest: seq<string>)
    ensures FirstUnset(env, [key] + rest) == if !IsSet(env, key) then Some(key) else FirstUnset(env, rest)
  {
    assert ([key] + rest)[1..] == rest;
  }

  /** The SES addresses are read last, in this order. */
  lemma FirstUnsetOfSes(env: Env)
    ensures FirstUnset(env, SesKeys) ==
      if !IsSet(env, "SES_FROM_ADDRESS") then Some("SES_FROM_ADDRESS")
      else if !IsSet(env, "SES_TO_ADDRESS") then Some("SES_TO_ADDRESS")
      else None
  {
    FirstUnsetCons(env, "SES_FROM_ADDRESS", ["SES_TO_ADDRESS"]);
    FirstUnsetCons(env, "SES_TO_ADDRESS", []);
  }

  /** Without the mock the three FreshRSS variables come first. */
  lemma FirstUnsetWithoutMock(env: Env)
    ensures FirstUnset(env, RequiredKeys(false)) ==
      if !IsSet(env, "FRESHRSS_BASE_URL") then Some("FRESHRSS_BASE_URL")
      else if !IsSet(env, "FRESHRSS_USERNAME") then Some("FRESHRSS_USERNAME")
      else if !IsSet(env, "FRESHRSS_API_PASSWORD") then Some("FRESHRSS_API_PASSWORD")
      else FirstUnset(env, SesKeys)
  {
    var tail2 := ["FRESHRSS_API_PASSWORD"] + SesKeys;
    var tail1 := ["FRESHRSS_USERNAME"] + tail2;
    assert RequiredKeys(false) == ["FRESHRSS_BASE_URL"] + tail1;
    FirstUnsetCons(env, "FRESHRSS_BASE_URL", tail1);
    FirstUnsetCons(env, "FRESHRSS_USERNAME", tail2);
    FirstUnsetCons(env, "FRESHRSS_API_PASSWORD", SesKeys);
  }

  /** The load fails exactly when a required variable is unset, and the
      error names the first one in reading order. */
  lemma LoadConfigFailsOnFirstUnset(env: Env)
    ensures var missing := FirstUnset(env, RequiredKeys(UseMock(env)));
      && (LoadConfig(env).Err? <==> missing.Some?)
      && (missing.Some? ==> LoadConfig(env).error == MissingMessage(missing.value))
  {
    FirstUnsetOfSes(env);
    if UseMock(env) {
      assert RequiredKeys(true) == SesKeys;
    } else {
      FirstUnsetWithoutMock(env);
    }
  }

  /** Under the mock the FreshRSS variables are not read: removing them
      changes nothing. */
  lemma MockIgnoresFreshRssVariables(env: Env)
    requires UseMock(env)
    ensures LoadConfig(env - {"FRESHRSS_BASE_URL", "FRESHRSS_USERNAME", "FRESHRSS_API_PASSWORD"}) == LoadConfig(env)
  {
    var reduced := env - {"FRESHRSS_BASE_URL", "FRESHRSS_USERNAME", "FRESHRSS_API_PASSWORD"};
    assert "USE_FRESHRSS_MOCK" in reduced <==> "USE_FRESHRSS_MOCK" in env;
    assert UseMock(reduced);
    forall key | key in ["BEDROCK_REGION", "SES_REGION", "SES_FROM_ADDRESS", "SES_TO_ADDRESS"]
      ensures key in reduced <==> key in env
      ensures key in env ==> reduced[key] == env[key]
    {
    }
  }
}
