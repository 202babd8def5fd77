/**
 * Application settings derived from the process environment, and the checks
 * run on them at start-up. The environment is an explicit map from variable
 * name to value; a name absent from the map is an unset variable.
 */
module Config {
  import opened Wrappers
  import opened Strings

  type Environment = map<string, string>

  const DefaultModel: string := "gpt-4"
  const DefaultLogLevel: string := "INFO"
  const DefaultMaxTokens: int := 1200
  const ValidLogLevels: seq<string> := ["DEBUG", "INFO", "WARNING", "ERROR"]

  /** The value of variable `name`, or `None` when it is unset. */
  function Lookup(env: Environment, name: string): Option<string> {
    if name in env then Some(env[name]) else None
  }

  /** The value of variable `name` with a default that replaces an unset variable, not an empty one. */
  function GetEnv(env: Environment, name: string, default: string): string {
    Lookup(env, name).GetOr(default)
  }

  /** Python truthiness of an optional string: present and non-empty. */
  predicate IsSet(o: Option<string>) {
    o.Some? && o.value != ""
  }

  datatype Settings = Settings(
    botToken: Option<string>,
    logLevel: string,
    adminUserId: Option<string>,
    apiKey: Option<string>,
    model: string,
    primaryModel: string,
    fallbackModel: string,
    fallbackEnabled: bool,
    fallbackModels: seq<string>,
    maxTokens: int)

  /** Non-empty, with no white space at either end: what `str.strip()` leaves when it leaves anything. */
  predicate Unpadded(n: string) {
    n != [] && !IsSpace(n[0]) && !IsSpace(n[|n| - 1])
  }

  /** A model name as the comma-list parser produces it: unpadded and comma-free. */
  predicate IsCleanName(n: string) {
    Unpadded(n) && ',' !in n
  }

  predicate AllUnpadded(names: seq<string>) {
    forall i :: 0 <= i < |names| ==> Unpadded(names[i])
  }

  predicate CommaFree(names: seq<string>) {
    forall i :: 0 <= i < |names| ==> ',' !in names[i]
  }

  predicate AllClean(names: seq<string>) {
    forall i :: 0 <= i < |names| ==> IsCleanName(names[i])
  }

  lemma StripOfCleanName(n: string)
    requires IsCleanName(n)
    ensures Strip(n) == n
  {
    assert TrimStart(n) == n;
  }

  /** Stripping never adds a character. */
  lemma StripKeepsOut(s: string, c: char)
    ensures c !in s ==> c !in Strip(s)
  {
    StripSlice(s);
    var k := |s| - |TrimStart(s)|;
    var r := Strip(s);
    forall i | 0 <= i < |r| ensures r[i] == s[k + i] {
    }
  }

  lemma CommaFreeTail(pieces: seq<string>)
    requires pieces != []
    ensures CommaFree(pieces) ==> CommaFree(pieces[1..]) && ',' !in pieces[0]
  {
  }

  lemma ConsNames(name: string, rest: seq<string>)
    requires Unpadded(name) && AllUnpadded(rest)
    ensures AllUnpadded([name] + rest)
    ensures ',' !in name && CommaFree(rest) ==> CommaFree([name] + rest)
  {
  }

  /** Each piece stripped, the pieces that strip to nothing dropped, order kept. */
  function KeepNames(pieces: seq<string>): (r: seq<string>)
    ensures |r| <= |pieces|
    ensures AllUnpadded(r)
    ensures CommaFree(pieces) ==> CommaFree(r)
  {
    if pieces == [] then []
    else
      var name := Strip(pieces[0]);
      var rest := KeepNames(pieces[1..]);
      CommaFreeTail(pieces);
      if name == [] then rest
      else
        StripKeepsOut(pieces[0], ',');
        ConsNames(name, rest);
        [name] + rest
  }

  /** The fallback-model list: the text split at commas, each piece stripped, blank pieces dropped. */
  function ParseFallbackModels(raw: string): (r: seq<string>)
    ensures AllClean(r)
    ensures |r| <= |Split(raw, ',')|
  {
    var pieces := Split(raw, ',');
    assert CommaFree(pieces);
    KeepNames(pieces)
  }

  lemma Uncons(names: seq<string>)
    requires names != []
    ensures [names[0]] + names[1..] == names
  {
  }

  /** A single piece gives its stripped text, or nothing when it is blank. */
  lemma KeepNamesOfOne(p: string)
    ensures KeepNames([p]) == if Strip(p) == [] then [] else [Strip(p)]
  {
    assert [p][1..] == [];
  }

  /** The pieces are handled one by one, independently of each other, in order. */
  lemma {:induction false} KeepNamesAppend(a: seq<string>, b: seq<string>)
    ensures KeepNames(a + b) == KeepNames(a) + KeepNames(b)
    decreases |a|
  {
    if a == [] {
      assert a + b == b;
    } else {
      assert (a + b)[1..] == a[1..] + b;
      assert (a + b)[0] == a[0];
      KeepNamesAppend(a[1..], b);
    }
  }

  lemma ThreePieces(x: string, y: string, z: string)
    ensures [x, y, z] == [x] + ([y] + [z])
  {
  }

  lemma TwoNames(x: string, y: string)
    ensures [x] + ([] + [y]) == [x, y]
  {
  }

  lemma SplitThree(a: string, b: string, c: string)
    requires ',' !in a && ',' !in b && ',' !in c
    ensures Split(a + [','] + b + [','] + c, ',') == [a, b, c]
  {
    SplitAtSeparator(b, ',', c);
    SplitWithoutSeparator(c, ',');
    assert a + [','] + b + [','] + c == a + [','] + (b + [','] + c);
    SplitAtSeparator(a, ',', b + [','] + c);
    ThreePieces(a, b, c);
  }

  lemma KeepThree(a: string, b: string, c: string)
    requires Strip(a) != [] && Strip(b) == [] && Strip(c) != []
    ensures KeepNames([a, b, c]) == [Strip(a), Strip(c)]
  {
    ThreePieces(a, b, c);
    KeepNamesAppend([a], [b] + [c]);
    KeepNamesAppend([b], [c]);
    KeepNamesOfOne(a);
    KeepNamesOfOne(b);
    KeepNamesOfOne(c);
    TwoNames(Strip(a), Strip(c));
  }

  /**
   * Each entry is stripped and a blank entry is dropped: entries " a ", " "
   * and "b" give the names "a" and "b".
   */
  lemma ParseDropsBlankEntry(a: string, b: string, c: string)
    requires ',' !in a && ',' !in b && ',' !in c
    requires Strip(a) != [] && Strip(b) == [] && Strip(c) != []
    ensures ParseFallbackModels(a + [','] + b + [','] + c) == [Strip(a), Strip(c)]
  {
    SplitThree(a, b, c);
    KeepThree(a, b, c);
  }

  lemma {:induction false} KeepCleanNames(names: seq<string>)
    requires AllClean(names)
    ensures KeepNames(names) == names
  {
    if names != [] {
      var rest := names[1..];
      assert AllClean(rest) by {
        forall i | 0 <= i < |rest| ensures IsCleanName(rest[i]) {
          assert rest[i] == names[i + 1];
        }
      }
      KeepCleanNames(rest);
      StripOfCleanName(names[0]);
      Uncons(names);
    }
  }

  /** An empty setting gives no fallback models. */
  lemma ParseEmptyModels()
    ensures ParseFallbackModels("") == []
  {
    var pieces := Split("", ',');
    assert pieces == [""];
    assert Strip(pieces[0]) == "";
  }

  /** Parsing a comma-joined list of clean names gives back the same names in the same order. */
  lemma ParseJoinedModels(names: seq<string>)
    requires AllClean(names)
    ensures ParseFallbackModels(Join(names, ',')) == names
  {
    if names == [] {
      ParseEmptyModels();
    } else {
      assert forall i :: 0 <= i < |names| ==> ',' !in names[i];
      SplitJoin(names, ',');
      var pieces := Split(Join(names, ','), ',');
      assert pieces == names;
      KeepCleanNames(names);
      assert KeepNames(pieces) == names;
    }
  }

  /** ASCII spelling of the word "true" in any letter case. */
  predicate SpellsTrue(v: string) {
    && |v| == 4
    && (v[0] == 't' || v[0] == 'T')
    && (v[1] == 'r' || v[1] == 'R')
    && (v[2] == 'u' || v[2] == 'U')
    && (v[3] == 'e' || v[3] == 'E')
  }

  /** The fallback switch: on when unset, otherwise on when the lower-cased value is "true". */
  function FallbackEnabled(setting: Option<string>): (r: bool)
    ensures setting.None? ==> r
    ensures setting.Some? ==> (r <==> SpellsTrue(setting.value))
  {
    Lower(setting.GetOr("true")) == "true"
  }

  /** The token limit: the integer given, 1200 when unset or when the value does not parse. */
  function MaxTokens(setting: Option<string>): (r: int)
    ensures setting.None? ==> r == DefaultMaxTokens
    ensures setting.Some? && ParseInt(setting.value).None? ==> r == DefaultMaxTokens
    ensures setting.Some? && ParseInt(setting.value).Some? ==> r == ParseInt(setting.value).value
  {
    var raw := setting.GetOr("1200");
    assert "1200"[..3] == "120" && "120"[..2] == "12" && "12"[..1] == "1";
    match ParseInt(raw)
    case Some(n) => n
    case None => DefaultMaxTokens
  }

  /** Any integer written in decimal is taken as the token limit as it is. */
  lemma MaxTokensOfDecimal(n: int)
    ensures MaxTokens(Some(IntToString(n))) == n
  {
    ParseIntOfIntToString(n);
  }

  /** The class attributes of `Config`, read from `env`. */
  function FromEnvironment(env: Environment): Settings {
    var model := GetEnv(env, "LLM_MODEL", DefaultModel);
    Settings(
      botToken := Lookup(env, "TELEGRAM_BOT_TOKEN"),
      logLevel := GetEnv(env, "LOG_LEVEL", DefaultLogLevel),
      adminUserId := Lookup(env, "ADMIN_USER_ID"),
      apiKey := Lookup(env, "OPENROUTER_API_KEY"),
      model := model,
      primaryModel := GetEnv(env, "LLM_PRIMARY_MODEL", model),
      fallbackModel := GetEnv(env, "LLM_FALLBACK_MODEL", ""),
      fallbackEnabled := FallbackEnabled(Lookup(env, "LLM_FALLBACK_ENABLED")),
      fallbackModels := ParseFallbackModels(GetEnv(env, "LLM_FALLBACK_MODELS", "")),
      maxTokens := MaxTokens(Lookup(env, "LLM_MAX_TOKENS")))
  }

  /** The fallback list holds only clean names, whatever the environment. */
  lemma FallbackNamesClean(env: Environment)
    ensures AllClean(FromEnvironment(env).fallbackModels)
  {
  }

  /** Fallback is on unless LLM_FALLBACK_ENABLED is set to something other than "true" in any letter case. */
  lemma FallbackSwitch(env: Environment)
    ensures FromEnvironment(env).fallbackEnabled <==>
              "LLM_FALLBACK_ENABLED" !in env || SpellsTrue(env["LLM_FALLBACK_ENABLED"])
  {
  }

  /** The primary model falls back to the legacy model setting, and that to "gpt-4". */
  lemma PrimaryModelDefaults(env: Environment)
    requires "LLM_PRIMARY_MODEL" !in env
    ensures "LLM_MODEL" in env ==> FromEnvironment(env).primaryModel == env["LLM_MODEL"]
    ensures "LLM_MODEL" !in env ==> FromEnvironment(env).primaryModel == "gpt-4"
  {
  }

  /** `Config.get_fallback_models()`: the parsed list, else the single legacy model, else nothing. */
  function FallbackModels(c: Settings): (r: seq<string>)
    ensures r == [] <==> c.fallbackModels == [] && c.fallbackModel == ""
    ensures c.fallbackModels != [] ==> r == c.fallbackModels
    ensures c.fallbackModels == [] && r != [] ==> r == [c.fallbackModel]
    ensures (forall i :: 0 <= i < |c.fallbackModels| ==> c.fallbackModels[i] != "") ==>
              forall i :: 0 <= i < |r| ==> r[i] != ""
  {
    var models := c.fallbackModels;
    if models == [] && c.fallbackModel != "" then models + [c.fallbackModel] else models
  }

  /** With LLM_FALLBACK_MODELS set to a comma list of clean names, exactly those names are the fallbacks. */
  lemma FallbackModelsFromList(env: Environment, names: seq<string>)
    requires names != [] && AllClean(names)
    requires "LLM_FALLBACK_MODELS" in env && env["LLM_FALLBACK_MODELS"] == Join(names, ',')
    ensures FallbackModels(FromEnvironment(env)) == names
  {
    ParseJoinedModels(names);
  }

  /** The start-up checks, in the order `Config.validate()` makes them. */
  datatype ConfigError = MissingBotToken | InvalidLogLevel | InvalidAdminId | MissingApiKey

  function Rank(e: ConfigError): nat {
    match e
    case MissingBotToken => 0
    case InvalidLogLevel => 1
    case InvalidAdminId => 2
    case MissingApiKey => 3
  }

  /** Whether the check named by `e` rejects `c`. */
  predicate Fails(c: Settings, e: ConfigError) {
    match e
    case MissingBotToken => !IsSet(c.botToken)
    case InvalidLogLevel => c.logLevel !in ValidLogLevels
    case InvalidAdminId => IsSet(c.adminUserId) && ParseInt(c.adminUserId.value).None?
    case MissingApiKey => !IsSet(c.apiKey)
  }

  /** `Config.validate()`: `None` when it returns, `Some(e)` for the `ValueError` it raises. */
  function Validate(c: Settings): (r: Option<ConfigError>)
    ensures r.None? ==> forall e :: !Fails(c, e)
    ensures r.Some? ==> Fails(c, r.value) && forall e :: Rank(e) < Rank(r.value) ==> !Fails(c, e)
  {
    if !IsSet(c.botToken) then Some(MissingBotToken)
    else if c.logLevel !in ValidLogLevels then Some(InvalidLogLevel)
    else if IsSet(c.adminUserId) && ParseInt(c.adminUserId.value).None? then Some(InvalidAdminId)
    else if !IsSet(c.apiKey) then Some(MissingApiKey)
    else None
  }

  /** `Config.is_admin(user_id)`: the configured id must be exactly the decimal form of `userId`. */
  function IsAdmin(adminUserId: Option<string>, userId: int): (r: bool)
    ensures r <==> adminUserId == Some(IntToString(userId))
    ensures r ==> IsSet(adminUserId) && ParseInt(adminUserId.value) == Some(userId)
  {
    if !IsSet(adminUserId) then false
    else
      ParseIntOfIntToString(userId);
      IntToString(userId) == adminUserId.value
  }

  /** At most one user id is the administrator, whatever the setting. */
  lemma AdminIsUnique(adminUserId: Option<string>, u: int, v: int)
    requires IsAdmin(adminUserId, u) && IsAdmin(adminUserId, v)
    ensures u == v
  {
  }

  /**
   * `validate()` accepts any administrator id `int()` parses, but `is_admin`
   * compares text: with ADMIN_USER_ID "0123" the settings validate and yet no
   * user is the administrator.
   */
  lemma PaddedAdminLocksEveryoneOut(u: int)
    ensures Validate(TestSettings("INFO").(adminUserId := Some("0123"))) == None
    ensures !IsAdmin(Some("0123"), u)
  {
    assert ParseInt("0123").Some? by {
      assert AllDigits("0123");
    }
    IntToStringNoLeadingZero(u);
  }

  /** The administrator check compared by value, as `validate()` reads the setting. */
  function IsAdminById(adminUserId: Option<string>, userId: int): (r: bool)
    ensures r <==> IsSet(adminUserId) && ParseInt(adminUserId.value) == Some(userId)
    ensures IsAdmin(adminUserId, userId) ==> r
  {
    IsSet(adminUserId) && ParseInt(adminUserId.value) == Some(userId)
  }

  /** Compared by value, every administrator id that passes validation names exactly one user. */
  lemma ValidatedAdminNamesOneUser(c: Settings)
    requires Validate(c) == None && IsSet(c.adminUserId)
    ensures var u := ParseInt(c.adminUserId.value).value;
            IsAdminById(c.adminUserId, u) && forall v :: IsAdminById(c.adminUserId, v) ==> v == u
  {
    assert !Fails(c, InvalidAdminId);
  }

  /** With nothing set: defaults everywhere, and validation stops at the missing bot token. */
  lemma EmptyEnvironment()
    ensures var c := FromEnvironment(map[]);
            && c.primaryModel == "gpt-4" && c.logLevel == "INFO" && c.fallbackEnabled
            && c.maxTokens == 1200 && FallbackModels(c) == []
            && Validate(c) == Some(MissingBotToken)
  {
    var c := FromEnvironment(map[]);
    assert c.fallbackModels == [] by {
      ParseEmptyModels();
    }
  }

  /** `validate()` looks only at the bot token, the log level, the administrator id and the API key. */
  lemma ValidationReadsFourSettings(c: Settings, c': Settings)
    requires c.botToken == c'.botToken && c.logLevel == c'.logLevel
    requires c.adminUserId == c'.adminUserId && c.apiKey == c'.apiKey
    ensures Validate(c) == Validate(c')
  {
  }

  /** Settings as the configuration tests give them, with the given log level. */
  function TestSettings(logLevel: string): Settings {
    Settings(Some("T"), logLevel, None, Some("K"), "gpt-4", "gpt-4", "", true, [], 1200)
  }

  /** Token, key and level INFO: validation passes; level "INVALID": the log-level check fails. */
  lemma ValidationOfTestSettings()
    ensures Validate(TestSettings("INFO")) == None
    ensures Validate(TestSettings("INVALID")) == Some(InvalidLogLevel)
  {
    assert "INFO" == ValidLogLevels[1];
    assert forall i :: 0 <= i < |ValidLogLevels| ==> ValidLogLevels[i] != "INVALID";
  }

  /** With ADMIN_USER_ID "123", user 123 is the administrator and user 456 is not. */
  lemma AdminCheck()
    ensures IsAdmin(Some("123"), 123) && !IsAdmin(Some("123"), 456)
  {
    assert IntToString(123) == "123" by {
      assert NatToString(1) == "1";
      assert NatToString(12) == "12";
    }
  }
}
