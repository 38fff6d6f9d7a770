/** Configuration lookup (config.py): secret masking for log lines, and the Config
    object that resolves a key from Doppler, the environment (after the .env file)
    or a default, parses booleans and numbers, checks that the platform
    credentials are complete and logs its Doppler warnings at most once. */
module Configuration {
  import opened Common
  import opened Text

  // ---------------------------------------------------------------------------
  // Masking
  // ---------------------------------------------------------------------------

  const SENSITIVE_KEYWORDS: seq<string> := ["password", "token", "secret", "key", "credential", "api"]

  /** A key is sensitive when its lower-case form contains one of the keywords. */
  predicate IsSensitiveKey(key: string) {
    exists i :: 0 <= i < |SENSITIVE_KEYWORDS| && Contains(Lower(key), SENSITIVE_KEYWORDS[i])
  }

  /** _mask_sensitive_value: the value of a sensitive key becomes "***" when it has at
      most four characters and its first two, "..." and its last two otherwise;
      other values are logged as they are. */
  function MaskSensitiveValue(key: string, value: string): (r: string)
    ensures !IsSensitiveKey(key) ==> r == value
    ensures IsSensitiveKey(key) ==> |r| <= 7
  {
    if IsSensitiveKey(key) then
      if |value| <= 4 then "***" else value[..2] + "..." + value[|value| - 2..]
    else value
  }

  /** A masked long secret shows its first two and last two characters around
      "...": seven characters in all. */
  lemma MaskShowsOnlyEnds(key: string, value: string)
    requires IsSensitiveKey(key) && |value| > 4
    ensures var r := MaskSensitiveValue(key, value);
      && |r| == 7 && r[..2] == value[..2] && r[2..5] == "..." && r[5..] == value[|value| - 2..]
  {
    var r := MaskSensitiveValue(key, value);
    assert r == value[..2] + "..." + value[|value| - 2..];
    assert r[..2] == value[..2];
    assert r[2..5] == "...";
    assert r[5..] == value[|value| - 2..];
  }

  /** The mask reveals at most four characters: two secrets of more than four
      characters that agree on their first two and last two characters mask alike,
      and all short secrets mask alike. */
  lemma MaskRevealsAtMostFour(key: string, v1: string, v2: string)
    requires IsSensitiveKey(key)
    requires (|v1| <= 4 && |v2| <= 4)
             || (|v1| > 4 && |v2| > 4 && v1[..2] == v2[..2] && v1[|v1| - 2..] == v2[|v2| - 2..])
    ensures MaskSensitiveValue(key, v1) == MaskSensitiveValue(key, v2)
  {
  }

  /** Whether a key is sensitive does not depend on its case. */
  lemma SensitivityIgnoresCase(key: string)
    ensures IsSensitiveKey(key) == IsSensitiveKey(Lower(key))
  {
    LowerIdempotent(key);
  }

  /** Concrete masks: an app password, the Mastodon base URL (its key contains
      "api") and a short token. */
  lemma MaskExamples()
    ensures MaskSensitiveValue("BLUESKY_APP_PASSWORD", "abcd-efgh-ijkl") == "ab...kl"
    ensures MaskSensitiveValue("MASTODON_API_BASE_URL", "https://mastodon.social") == "ht...al"
    ensures MaskSensitiveValue("MASTODON_ACCESS_TOKEN", "abcd") == "***"
  {
    MaskPasswordExample();
    MaskBaseUrlExample();
    MaskShortTokenExample();
  }

  lemma MaskPasswordExample()
    ensures MaskSensitiveValue("BLUESKY_APP_PASSWORD", "abcd-efgh-ijkl") == "ab...kl"
  {
    assert Upper(SENSITIVE_KEYWORDS[0]) == "PASSWORD";
    SensitiveByKeyword("BLUESKY_APP_", 0, "");
    assert "BLUESKY_APP_" + "PASSWORD" + "" == "BLUESKY_APP_PASSWORD";
  }

  lemma MaskBaseUrlExample()
    ensures MaskSensitiveValue("MASTODON_API_BASE_URL", "https://mastodon.social") == "ht...al"
  {
    assert Upper(SENSITIVE_KEYWORDS[5]) == "API";
    SensitiveByKeyword("MASTODON_", 5, "_BASE_URL");
    assert "MASTODON_" + "API" + "_BASE_URL" == "MASTODON_API_BASE_URL";
  }

  lemma MaskShortTokenExample()
    ensures MaskSensitiveValue("MASTODON_ACCESS_TOKEN", "abcd") == "***"
  {
    assert Upper(SENSITIVE_KEYWORDS[1]) == "TOKEN";
    SensitiveByKeyword("MASTODON_ACCESS_", 1, "");
    assert "MASTODON_ACCESS_" + "TOKEN" + "" == "MASTODON_ACCESS_TOKEN";
  }

  /** A key built around an upper-case keyword is sensitive. */
  lemma SensitiveByKeyword(before: string, i: nat, after: string)
    requires i < |SENSITIVE_KEYWORDS|
    ensures IsSensitiveKey(before + Upper(SENSITIVE_KEYWORDS[i]) + after)
  {
    var word := SENSITIVE_KEYWORDS[i];
    assert forall j :: 0 <= j < |word| ==> 'a' <= word[j] <= 'z';
    LowerOfUpper(word);
    LowerConcat(before + Upper(word), after);
    LowerConcat(before, Upper(word));
    ContainsMiddle(Lower(before), word, Lower(after));
  }

  /** `LOG_LEVEL` is not sensitive: its value is logged as it is. */
  lemma PublicKeyExample()
    ensures MaskSensitiveValue("LOG_LEVEL", "DEBUG") == "DEBUG"
  {
    var lowered := Lower("LOG_LEVEL");
    assert lowered == "log_level";
    forall i | 0 <= i < |SENSITIVE_KEYWORDS|
      ensures !Contains(lowered, SENSITIVE_KEYWORDS[i])
    {
      NotContainsWithoutFirstChar(lowered, SENSITIVE_KEYWORDS[i]);
    }
  }

  // ---------------------------------------------------------------------------
  // Value resolution
  // ---------------------------------------------------------------------------

  /** What the Doppler SDK's secrets listing gives for the configured project: an
      exception with its message, a response without secrets, or the secrets with
      their optional `computed` values. */
  datatype DopplerResponse =
    | FetchFailed(reason: string)
    | NoSecrets
    | Secrets(computed: map<string, Option<string>>)

  /** The sources a lookup consults: the process environment after the .env file,
      whether Doppler was initialised, and what Doppler answers. */
  datatype Sources = Sources(env: map<string, string>, dopplerEnabled: bool, doppler: DopplerResponse)

  /** load_dotenv without override: the file fills in keys the process environment
      does not set. */
  function LoadDotenv(environment: map<string, string>, dotenv: Option<map<string, string>>): (env: map<string, string>)
    ensures forall k :: k in environment ==> k in env && env[k] == environment[k]
    ensures dotenv.Some? ==> forall k :: k in dotenv.value && k !in environment ==> k in env && env[k] == dotenv.value[k]
    ensures forall k :: k in env ==> k in environment || (dotenv.Some? && k in dotenv.value)
  {
    match dotenv
    case None => environment
    case Some(file) => map k | k in environment.Keys + file.Keys :: if k in environment then environment[k] else file[k]
  }

  /** `value if value is not None else default` over os.getenv. */
  function EnvOrDefault(env: map<string, string>, key: string, default: Option<string>): Option<string> {
    if key in env then Some(env[key]) else default
  }

  /** DOPPLER_PROJECT and DOPPLER_CONFIG are both set and non-empty. */
  predicate DopplerScoped(env: map<string, string>) {
    "DOPPLER_PROJECT" in env && env["DOPPLER_PROJECT"] != ""
    && "DOPPLER_CONFIG" in env && env["DOPPLER_CONFIG"] != ""
  }

  /** Config.get: a non-empty Doppler value wins; otherwise the environment value,
      even an empty one; otherwise the default. */
  function Resolve(s: Sources, key: string, default: Option<string>): (r: Option<string>)
    ensures r.Some? ==> (key in s.env && r.value == s.env[key]) || default == r
                        || (s.doppler.Secrets? && key in s.doppler.computed && s.doppler.computed[key] == r)
  {
    var value := if key in s.env then Some(s.env[key]) else None;
    if s.dopplerEnabled then
      if !DopplerScoped(s.env) then
        if value.Some? then value else default
      else
        match s.doppler
        case Secrets(computed) =>
          if key in computed && computed[key].Some? && computed[key].value != "" then computed[key]
          else if value.Some? then value else default
        case _ => if value.Some? then value else default
    else
      if value.Some? then value else default
  }

  /** The override Doppler gives for a key, if any: a non-empty computed value, read
      only when Doppler is enabled and scoped. */
  function DopplerOverride(s: Sources, key: string): Option<string> {
    if s.dopplerEnabled && DopplerScoped(s.env) && s.doppler.Secrets? && key in s.doppler.computed
       && s.doppler.computed[key].Some? && s.doppler.computed[key].value != ""
    then s.doppler.computed[key]
    else None
  }

  /** Priority: the Doppler override if there is one, else the environment (even an
      empty value), else the default. */
  lemma ResolvePriority(s: Sources, key: string, default: Option<string>)
    ensures DopplerOverride(s, key).Some? ==> Resolve(s, key, default) == DopplerOverride(s, key)
    ensures DopplerOverride(s, key).None? ==> Resolve(s, key, default) == EnvOrDefault(s.env, key, default)
  {
  }

  /** Without Doppler the environment value is returned whenever it is set, an
      empty one included, and the default only when the key is unset. */
  lemma ResolveWithoutDoppler(s: Sources, key: string, default: Option<string>)
    requires !s.dopplerEnabled
    ensures key in s.env ==> Resolve(s, key, default) == Some(s.env[key])
    ensures key !in s.env ==> Resolve(s, key, default) == default
  {
  }

  /** Doppler never overrides with an empty or missing computed value, nor when the
      project or config is unset or the listing fails. */
  lemma DopplerOverrideOnlyNonEmpty(s: Sources, key: string)
    ensures DopplerOverride(s, key).Some? ==> DopplerOverride(s, key).value != ""
    ensures !DopplerScoped(s.env) || s.doppler.FetchFailed? || s.doppler.NoSecrets? ==> DopplerOverride(s, key).None?
    ensures s.doppler.Secrets? && key in s.doppler.computed && s.doppler.computed[key] == Some("") ==> DopplerOverride(s, key).None?
  {
  }

  /** A lookup comes back empty exactly when no source has the key and there is no
      default. */
  lemma ResolveNoneIff(s: Sources, key: string, default: Option<string>)
    ensures Resolve(s, key, default).None? <==> (default.None? && key !in s.env && DopplerOverride(s, key).None?)
  {
    ResolvePriority(s, key, default);
  }

  // ---------------------------------------------------------------------------
  // Typed readings
  // ---------------------------------------------------------------------------

  const TRUE_WORDS: seq<string> := ["true", "1", "yes", "on", "enabled"]

  /** get_bool on a looked-up value: the default when unset, otherwise whether its
      lower-case form is one of the true words. */
  function BoolValue(value: Option<string>, default: bool): bool {
    match value
    case None => default
    case Some(v) => Lower(v) in TRUE_WORDS
  }

  /** The empty string is false, case does not matter, and the true words in any
      case are true while other words are false. */
  lemma BoolValueProperties(v: string, default: bool)
    ensures !BoolValue(Some(""), default)
    ensures BoolValue(Some(v), default) == BoolValue(Some(Lower(v)), !default)
    ensures BoolValue(Some("TRUE"), default) && BoolValue(Some("Yes"), default) && BoolValue(Some("Enabled"), default)
    ensures !BoolValue(Some("no"), default) && !BoolValue(Some("false"), default) && !BoolValue(Some("0"), default)
  {
    LowerIdempotent(v);
    assert Lower("TRUE") == "true";
    assert Lower("Yes") == "yes";
    assert Lower("Enabled") == "enabled";
    assert Lower("no") == "no";
    assert Lower("false") == "false";
    assert Lower("0") == "0";
    assert Lower("") == "";
  }

  /** get_int / get_float on a looked-up value, with the parser abstracted: the
      default when unset or unparsable, otherwise the parsed value. */
  function NumberValue<T>(value: Option<string>, default: T, parse: string -> Option<T>): T {
    match value
    case None => default
    case Some(v) => parse(v).GetOr(default)
  }

  /** The warning logged for an unparsable number: the value is masked. */
  function InvalidValueWarning(kind: string, key: string, value: string, defaultText: string): string {
    "Invalid " + kind + " value for " + key + ": " + MaskSensitiveValue(key, value) + ", using default " + defaultText
  }

  /** A sensitive key's long value appears in the warning only through its mask. */
  lemma InvalidValueWarningMasks(kind: string, key: string, value: string, defaultText: string)
    requires IsSensitiveKey(key) && |value| > 4
    ensures InvalidValueWarning(kind, key, value, defaultText)
            == "Invalid " + kind + " value for " + key + ": " + value[..2] + "..." + value[|value| - 2..]
               + ", using default " + defaultText
  {
  }

  /** require: the value, or the error naming the key when the lookup is None. */
  function RequireValue(s: Sources, key: string): (r: Result<string>)
    ensures r.Err? <==> Resolve(s, key, None).None?
    ensures r.Ok? ==> r.value == Resolve(s, key, None).value
    ensures r.Err? ==> r.error == "Required configuration key not found: " + key
  {
    match Resolve(s, key, None)
    case None => Err("Required configuration key not found: " + key)
    case Some(v) => Ok(v)
  }

  /** Python truthiness of an optional string: set and non-empty. */
  predicate Present(v: Option<string>) {
    v.Some? && v.value != ""
  }

  datatype BlueskySettings = BlueskySettings(handle: string, appPassword: string)
  datatype MastodonSettings = MastodonSettings(apiBaseUrl: string, accessToken: string,
                                               clientId: Option<string>, clientSecret: Option<string>)

  const BLUESKY_INCOMPLETE := "Bluesky configuration incomplete: need BLUESKY_HANDLE and BLUESKY_APP_PASSWORD"
  const MASTODON_INCOMPLETE := "Mastodon configuration incomplete: need MASTODON_API_BASE_URL and MASTODON_ACCESS_TOKEN"

  /** get_bluesky_config: handle and app password, both required to be non-empty. */
  function BlueskyConfig(s: Sources): (r: Result<BlueskySettings>)
    ensures r.Ok? <==> Present(Resolve(s, "BLUESKY_HANDLE", None)) && Present(Resolve(s, "BLUESKY_APP_PASSWORD", None))
    ensures r.Ok? ==> r.value.handle == Resolve(s, "BLUESKY_HANDLE", None).value != ""
                      && r.value.appPassword == Resolve(s, "BLUESKY_APP_PASSWORD", None).value != ""
    ensures r.Err? ==> r.error == BLUESKY_INCOMPLETE
  {
    var handle := Resolve(s, "BLUESKY_HANDLE", None);
    var password := Resolve(s, "BLUESKY_APP_PASSWORD", None);
    if !Present(handle) || !Present(password) then Err(BLUESKY_INCOMPLETE)
    else Ok(BlueskySettings(handle.value, password.value))
  }

  /** get_mastodon_config: base URL and access token required to be non-empty; the
      client id and secret are passed on as they are, possibly None. */
  function MastodonConfig(s: Sources): (r: Result<MastodonSettings>)
    ensures r.Ok? <==> Present(Resolve(s, "MASTODON_API_BASE_URL", None)) && Present(Resolve(s, "MASTODON_ACCESS_TOKEN", None))
    ensures r.Ok? ==> && r.value.apiBaseUrl == Resolve(s, "MASTODON_API_BASE_URL", None).value != ""
                      && r.value.accessToken == Resolve(s, "MASTODON_ACCESS_TOKEN", None).value != ""
                      && r.value.clientId == Resolve(s, "MASTODON_CLIENT_ID", None)
                      && r.value.clientSecret == Resolve(s, "MASTODON_CLIENT_SECRET", None)
    ensures r.Err? ==> r.error == MASTODON_INCOMPLETE
  {
    var apiBaseUrl := Resolve(s, "MASTODON_API_BASE_URL", None);
    var accessToken := Resolve(s, "MASTODON_ACCESS_TOKEN", None);
    var clientId := Resolve(s, "MASTODON_CLIENT_ID", None);
    var clientSecret := Resolve(s, "MASTODON_CLIENT_SECRET", None);
    if !Present(apiBaseUrl) || !Present(accessToken) then Err(MASTODON_INCOMPLETE)
    else Ok(MastodonSettings(apiBaseUrl.value, accessToken.value, clientId, clientSecret))
  }

  /** validate_config: some platform is both enabled and completely configured. */
  function PlatformsValid(s: Sources): bool {
    (BoolValue(Resolve(s, "BLUESKY_ENABLED", None), false) && BlueskyConfig(s).Ok?)
    || (BoolValue(Resolve(s, "MASTODON_ENABLED", None), false) && MastodonConfig(s).Ok?)
  }

  /** A disabled platform never validates the configuration, and an enabled one
      validates it as soon as its credentials are complete. */
  lemma PlatformsValidIff(s: Sources)
    ensures PlatformsValid(s) ==> BoolValue(Resolve(s, "BLUESKY_ENABLED", None), false)
                                  || BoolValue(Resolve(s, "MASTODON_ENABLED", None), false)
    ensures PlatformsValid(s) <==>
      || (BoolValue(Resolve(s, "BLUESKY_ENABLED", None), false)
          && Present(Resolve(s, "BLUESKY_HANDLE", None)) && Present(Resolve(s, "BLUESKY_APP_PASSWORD", None)))
      || (BoolValue(Resolve(s, "MASTODON_ENABLED", None), false)
          && Present(Resolve(s, "MASTODON_API_BASE_URL", None)) && Present(Resolve(s, "MASTODON_ACCESS_TOKEN", None)))
  {
  }

  /** An empty handle is found by require but refused by get_bluesky_config. */
  lemma EmptyValueRequiredButIncomplete()
    ensures var s := Sources(map["BLUESKY_HANDLE" := "", "BLUESKY_APP_PASSWORD" := "secret"], false, NoSecrets);
      RequireValue(s, "BLUESKY_HANDLE") == Ok("") && BlueskyConfig(s) == Err(BLUESKY_INCOMPLETE)
  {
    var s := Sources(map["BLUESKY_HANDLE" := "", "BLUESKY_APP_PASSWORD" := "secret"], false, NoSecrets);
    assert Resolve(s, "BLUESKY_HANDLE", None) == Some("");
  }

  // ---------------------------------------------------------------------------
  // The Config object
  // ---------------------------------------------------------------------------

  const DOPPLER_SCOPE_WARNING := "DOPPLER_PROJECT and DOPPLER_CONFIG " + "must be set in .env to use Doppler"
  const DOPPLER_FETCH_PREFIX := "Doppler fetch failed: "

  /** The number of log lines that start with `prefix`. */
  function CountStartingWith(log: seq<string>, prefix: string): nat {
    if |log| == 0 then 0
    else CountStartingWith(log[..|log| - 1], prefix) + (if StartsWith(log[|log| - 1], prefix) then 1 else 0)
  }

  /** A line that differs from a prefix at some position does not start with it. */
  lemma DifferentAt(line: string, prefix: string, i: nat)
    requires i < |line| && i < |prefix| && line[i] != prefix[i]
    ensures !StartsWith(line, prefix)
  {
  }

  class Config {
    /** os.environ after the .env file was loaded. */
    const env: map<string, string>
    const dopplerEnabled: bool
    /** What the Doppler client answers to a secrets listing. */
    const doppler: DopplerResponse
    /** `_doppler_config_warning` and `_doppler_error_logged`. */
    var scopeWarned: bool
    var fetchWarned: bool
    /** The warnings logged so far, in order. */
    var warnings: seq<string>

    /** Each one-shot warning appears in the log exactly when its flag is set, so at
        most once. */
    ghost predicate Valid()
      reads this
    {
      && CountStartingWith(warnings, DOPPLER_SCOPE_WARNING) == (if scopeWarned then 1 else 0)
      && CountStartingWith(warnings, DOPPLER_FETCH_PREFIX) == (if fetchWarned then 1 else 0)
    }

    function CurrentSources(): Sources
    {
      Sources(env, dopplerEnabled, doppler)
    }

    /** Doppler is on but its project or config is missing. */
    predicate ScopeMissing()
    {
      dopplerEnabled && !DopplerScoped(env)
    }

    /** Doppler is on and scoped, and the listing raises. */
    predicate FetchFails()
    {
      dopplerEnabled && DopplerScoped(env) && doppler.FetchFailed?
    }

    /** The warnings one lookup adds, given the flags before it. */
    function LookupWarnings(scopeWarnedBefore: bool, fetchWarnedBefore: bool): seq<string>
    {
      if ScopeMissing() && !scopeWarnedBefore then [DOPPLER_SCOPE_WARNING]
      else if FetchFails() && !fetchWarnedBefore then [DOPPLER_FETCH_PREFIX + doppler.reason]
      else []
    }

    /** __init__: load the .env file if one is found (the path given, or .env in the
        working directory), then enable Doppler when DOPPLER_TOKEN is set and the SDK
        initialises. */
    constructor(environment: map<string, string>, dotenv: Option<map<string, string>>,
                sdkInitialises: bool, response: DopplerResponse)
      ensures env == LoadDotenv(environment, dotenv)
      ensures dopplerEnabled <==> (Present(EnvOrDefault(env, "DOPPLER_TOKEN", None)) && sdkInitialises)
      ensures doppler == response
      ensures !scopeWarned && !fetchWarned && warnings == []
      ensures Valid()
    {
      var loaded := LoadDotenv(environment, dotenv);
      env := loaded;
      var token := EnvOrDefault(loaded, "DOPPLER_TOKEN", None);
      dopplerEnabled := token.Some? && token.value != "" && sdkInitialises;
      doppler := response;
      scopeWarned := false;
      fetchWarned := false;
      warnings := [];
    }

    /** get: the resolved value; a missing Doppler scope and a failing fetch are
        each logged the first time only. */
    method Get(key: string, default: Option<string>) returns (r: Option<string>)
      requires Valid()
      modifies this`scopeWarned, this`fetchWarned, this`warnings
      ensures Valid()
      ensures r == Resolve(CurrentSources(), key, default)
      ensures scopeWarned == (old(scopeWarned) || ScopeMissing())
      ensures fetchWarned == (old(fetchWarned) || FetchFails())
      ensures warnings == old(warnings) + LookupWarnings(old(scopeWarned), old(fetchWarned))
    {
      var value := if key in env then Some(env[key]) else None;
      if dopplerEnabled {
        var found := ConsultDoppler(key);
        if found.Some? {
          return found;
        }
      }
      r := if value.Some? then value else default;
    }

    /** The Doppler part of get: the override if the project is scoped and the
        listing has a non-empty computed value, with each failure logged the first
        time only. */
    method ConsultDoppler(key: string) returns (found: Option<string>)
      requires Valid() && dopplerEnabled
      modifies this`scopeWarned, this`fetchWarned, this`warnings
      ensures Valid()
      ensures found == DopplerOverride(CurrentSources(), key)
      ensures scopeWarned == (old(scopeWarned) || ScopeMissing())
      ensures fetchWarned == (old(fetchWarned) || FetchFails())
      ensures warnings == old(warnings) + LookupWarnings(old(scopeWarned), old(fetchWarned))
    {
      if !DopplerScoped(env) {
        WarnScopeOnce();
        return None;
      }
      match doppler {
        case Secrets(computed) =>
          if key in computed && computed[key].Some? && computed[key].value != "" {
            return computed[key];
          }
          found := None;
        case NoSecrets =>
          found := None;
        case FetchFailed(_) =>
          WarnFetchOnce();
          found := None;
      }
    }

    /** The missing-scope warning, logged unless it was logged before. */
    method WarnScopeOnce()
      requires Valid() && ScopeMissing()
      modifies this`scopeWarned, this`warnings
      ensures Valid() && scopeWarned
      ensures warnings == old(warnings) + (if old(scopeWarned) then [] else [DOPPLER_SCOPE_WARNING])
    {
      if !scopeWarned {
        assert DOPPLER_SCOPE_WARNING[1] == 'O' && DOPPLER_FETCH_PREFIX[1] == 'o';
        DifferentAt(DOPPLER_SCOPE_WARNING, DOPPLER_FETCH_PREFIX, 1);
        assert StartsWith(DOPPLER_SCOPE_WARNING, DOPPLER_SCOPE_WARNING);
        LogOnce(DOPPLER_SCOPE_WARNING);
        scopeWarned := true;
      }
    }

    /** The failed-listing warning, logged unless it was logged before. */
    method WarnFetchOnce()
      requires Valid() && FetchFails()
      modifies this`fetchWarned, this`warnings
      ensures Valid() && fetchWarned
      ensures warnings == old(warnings) + (if old(fetchWarned) then [] else [DOPPLER_FETCH_PREFIX + doppler.reason])
    {
      if !fetchWarned {
        var line := DOPPLER_FETCH_PREFIX + doppler.reason;
        assert line[..|DOPPLER_FETCH_PREFIX|] == DOPPLER_FETCH_PREFIX;
        assert line[1] == 'o' && DOPPLER_SCOPE_WARNING[1] == 'O';
        DifferentAt(line, DOPPLER_SCOPE_WARNING, 1);
        LogOnce(line);
        fetchWarned := true;
      }
    }

    /** After one lookup both flags are up to date, so a second lookup logs
        nothing. */
    lemma RepeatLookupSilent(scopeWarnedBefore: bool, fetchWarnedBefore: bool)
      ensures LookupWarnings(scopeWarnedBefore || ScopeMissing(), fetchWarnedBefore || FetchFails()) == []
    {
    }

    /** Appends one line to the log; the scope warning and a fetch warning never
        start with each other's text. */
    method LogOnce(line: string)
      modifies this`warnings
      ensures warnings == old(warnings) + [line]
      ensures CountStartingWith(warnings, DOPPLER_SCOPE_WARNING)
              == CountStartingWith(old(warnings), DOPPLER_SCOPE_WARNING) + (if StartsWith(line, DOPPLER_SCOPE_WARNING) then 1 else 0)
      ensures CountStartingWith(warnings, DOPPLER_FETCH_PREFIX)
              == CountStartingWith(old(warnings), DOPPLER_FETCH_PREFIX) + (if StartsWith(line, DOPPLER_FETCH_PREFIX) then 1 else 0)
    {
      warnings := warnings + [line];
      assert warnings[..|warnings| - 1] == old(warnings);
    }

    /** get_bool */
    method GetBool(key: string, default: bool) returns (b: bool)
      requires Valid()
      modifies this`scopeWarned, this`fetchWarned, this`warnings
      ensures Valid()
      ensures b == BoolValue(Resolve(CurrentSources(), key, None), default)
      ensures scopeWarned == (old(scopeWarned) || ScopeMissing())
      ensures fetchWarned == (old(fetchWarned) || FetchFails())
      ensures warnings == old(warnings) + LookupWarnings(old(scopeWarned), old(fetchWarned))
    {
      var value := Get(key, None);
      if value.None? {
        return default;
      }
      b := Lower(value.value) in TRUE_WORDS;
    }

    /** get_int / get_float with the parser as a parameter: an unparsable value is
        logged masked and gives the default. */
    method GetNumber<T>(key: string, default: T, parse: string -> Option<T>, kind: string, defaultText: string)
      returns (n: T)
      requires Valid()
      modifies this`scopeWarned, this`fetchWarned, this`warnings
      ensures Valid()
      ensures n == NumberValue(Resolve(CurrentSources(), key, None), default, parse)
      ensures scopeWarned == (old(scopeWarned) || ScopeMissing())
      ensures fetchWarned == (old(fetchWarned) || FetchFails())
      ensures var value := Resolve(CurrentSources(), key, None);
        warnings == old(warnings) + LookupWarnings(old(scopeWarned), old(fetchWarned))
                    + (if value.Some? && parse(value.value).None?
                       then [InvalidValueWarning(kind, key, value.value, defaultText)] else [])
    {
      var value := Get(key, None);
      if value.None? {
        return default;
      }
      var parsed := parse(value.value);
      if parsed.None? {
        var line := InvalidValueWarning(kind, key, value.value, defaultText);
        assert line[0] == 'I';
        assert DOPPLER_SCOPE_WARNING[0] == 'D' && DOPPLER_FETCH_PREFIX[0] == 'D';
        DifferentAt(line, DOPPLER_SCOPE_WARNING, 0);
        DifferentAt(line, DOPPLER_FETCH_PREFIX, 0);
        LogOnce(line);
        return default;
      }
      n := parsed.value;
    }

    /** get_posting_interval: POSTING_INTERVAL_HOURS as a float, 1.5 by default. */
    method GetPostingInterval(parseFloat: string -> Option<real>) returns (hours: real)
      requires Valid()
      modifies this`scopeWarned, this`fetchWarned, this`warnings
      ensures Valid()
      ensures hours == NumberValue(Resolve(CurrentSources(), "POSTING_INTERVAL_HOURS", None), 1.5, parseFloat)
      ensures scopeWarned == (old(scopeWarned) || ScopeMissing())
      ensures fetchWarned == (old(fetchWarned) || FetchFails())
      ensures var value := Resolve(CurrentSources(), "POSTING_INTERVAL_HOURS", None);
        warnings == old(warnings) + LookupWarnings(old(scopeWarned), old(fetchWarned))
                    + (if value.Some? && parseFloat(value.value).None?
                       then [InvalidValueWarning("float", "POSTING_INTERVAL_HOURS", value.value, "1.5")] else [])
    {
      hours := GetNumber("POSTING_INTERVAL_HOURS", 1.5, parseFloat, "float", "1.5");
    }

    /** require */
    method Require(key: string) returns (r: Result<string>)
      requires Valid()
      modifies this`scopeWarned, this`fetchWarned, this`warnings
      ensures Valid()
      ensures r == RequireValue(CurrentSources(), key)
      ensures scopeWarned == (old(scopeWarned) || ScopeMissing())
      ensures fetchWarned == (old(fetchWarned) || FetchFails())
      ensures warnings == old(warnings) + LookupWarnings(old(scopeWarned), old(fetchWarned))
    {
      var value := Get(key, None);
      if value.None? {
        return Err("Required configuration key not found: " + key);
      }
      r := Ok(value.value);
    }

    /** is_bluesky_enabled */
    method IsBlueskyEnabled() returns (b: bool)
      requires Valid()
      modifies this`scopeWarned, this`fetchWarned, this`warnings
      ensures Valid()
      ensures b == BoolValue(Resolve(CurrentSources(), "BLUESKY_ENABLED", None), false)
      ensures scopeWarned == (old(scopeWarned) || ScopeMissing())
      ensures fetchWarned == (old(fetchWarned) || FetchFails())
      ensures warnings == old(warnings) + LookupWarnings(old(scopeWarned), old(fetchWarned))
    {
      b := GetBool("BLUESKY_ENABLED", false);
    }

    /** is_mastodon_enabled */
    method IsMastodonEnabled() returns (b: bool)
      requires Valid()
      modifies this`scopeWarned, this`fetchWarned, this`warnings
      ensures Valid()
      ensures b == BoolValue(Resolve(CurrentSources(), "MASTODON_ENABLED", None), false)
      ensures scopeWarned == (old(scopeWarned) || ScopeMissing())
      ensures fetchWarned == (old(fetchWarned) || FetchFails())
      ensures warnings == old(warnings) + LookupWarnings(old(scopeWarned), old(fetchWarned))
    {
      b := GetBool("MASTODON_ENABLED", false);
    }

    /** get_bluesky_config */
    method GetBlueskyConfig() returns (r: Result<BlueskySettings>)
      requires Valid()
      modifies this`scopeWarned, this`fetchWarned, this`warnings
      ensures Valid()
      ensures r == BlueskyConfig(CurrentSources())
      ensures scopeWarned == (old(scopeWarned) || ScopeMissing())
      ensures fetchWarned == (old(fetchWarned) || FetchFails())
      ensures warnings == old(warnings) + LookupWarnings(old(scopeWarned), old(fetchWarned))
    {
      var handle := Get("BLUESKY_HANDLE", None);
      var password := Get("BLUESKY_APP_PASSWORD", None);
      if !Present(handle) || !Present(password) {
        return Err(BLUESKY_INCOMPLETE);
      }
      r := Ok(BlueskySettings(handle.value, password.value));
    }

    /** get_mastodon_config */
    method GetMastodonConfig() returns (r: Result<MastodonSettings>)
      requires Valid()
      modifies this`scopeWarned, this`fetchWarned, this`warnings
      ensures Valid()
      ensures r == MastodonConfig(CurrentSources())
      ensures scopeWarned == (old(scopeWarned) || ScopeMissing())
      ensures fetchWarned == (old(fetchWarned) || FetchFails())
      ensures warnings == old(warnings) + LookupWarnings(old(scopeWarned), old(fetchWarned))
    {
      var apiBaseUrl := Get("MASTODON_API_BASE_URL", None);
      var accessToken := Get("MASTODON_ACCESS_TOKEN", None);
      var clientId := Get("MASTODON_CLIENT_ID", None);
      var clientSecret := Get("MASTODON_CLIENT_SECRET", None);
      if !Present(apiBaseUrl) || !Present(accessToken) {
        return Err(MASTODON_INCOMPLETE);
      }
      r := Ok(MastodonSettings(apiBaseUrl.value, accessToken.value, clientId, clientSecret));
    }

    /** validate_config: accumulates whether an enabled platform has a complete
        configuration; however many lookups it makes, each Doppler warning is
        logged at most once. */
    method ValidateConfig() returns (valid: bool)
      requires Valid()
      modifies this`scopeWarned, this`fetchWarned, this`warnings
      ensures Valid()
      ensures valid == PlatformsValid(CurrentSources())
      ensures scopeWarned == (old(scopeWarned) || ScopeMissing())
      ensures fetchWarned == (old(fetchWarned) || FetchFails())
      ensures warnings == old(warnings) + LookupWarnings(old(scopeWarned), old(fetchWarned))
    {
      ghost var before := warnings;
      ghost var scopeBefore, fetchBefore := scopeWarned, fetchWarned;
      var hasPlatform := false;
      var blueskyEnabled := IsBlueskyEnabled();
      RepeatLookupSilent(scopeBefore, fetchBefore);
      ghost var after := warnings;
      assert after == before + LookupWarnings(scopeBefore, fetchBefore);
      if blueskyEnabled {
        var bluesky := GetBlueskyConfig();
        if bluesky.Ok? {
          hasPlatform := true;
        }
      }
      assert warnings == after;
      var mastodonEnabled := IsMastodonEnabled();
      assert warnings == after;
      if mastodonEnabled {
        var mastodon := GetMastodonConfig();
        if mastodon.Ok? {
          hasPlatform := true;
        }
      }
      assert warnings == after;
      if !hasPlatform {
        return false;
      }
      valid := true;
    }
  }
}
