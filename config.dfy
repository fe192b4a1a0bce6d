/** Runtime settings (`opencore/config.py`): read from the environment, with
    defaults, and two known-broken model strings corrected on the way in. */
module Config {
  import opened Wrappers
  import opened Environ
  import opened Text

  const DefaultAppEnv := "production"
  const DefaultHost := "0.0.0.0"
  const DefaultPort := 8000
  const DefaultLogLevel := "INFO"
  const DefaultHeartbeatInterval := 3600
  const DevelopmentEnv := "development"

  /** Model strings older configurations carry that no longer resolve, and
      what they are corrected to. */
  const BrokenGemini := "gemini/gemini-1.5-flash"
  const FixedGemini := "gemini/gemini-1.5-flash-latest"
  const BrokenGrok := "openai/grok-2-1212"
  const FixedGrok := "xai/grok-2-vision-1212"

  /** The `LLM_MODEL` value once the two known-broken strings are corrected. */
  function NormalisedModel(m: Option<string>): (r: Option<string>)
    ensures r != Some(BrokenGemini) && r != Some(BrokenGrok)
    ensures r.None? <==> m.None?
  {
    if m == Some(BrokenGemini) then Some(FixedGemini)
    else if m == Some(BrokenGrok) then Some(FixedGrok)
    else m
  }

  /** Only the two broken strings are rewritten: an absent model stays absent
      and every other value is kept as it is. */
  lemma NormalisedModelKeepsOthers(m: Option<string>)
    ensures m.None? ==> NormalisedModel(m).None?
    ensures m != Some(BrokenGemini) && m != Some(BrokenGrok) <==> NormalisedModel(m) == m
    ensures m == Some(BrokenGemini) <==> NormalisedModel(m) == Some(FixedGemini) && m != Some(FixedGemini)
    ensures m == Some(BrokenGrok) <==> NormalisedModel(m) == Some(FixedGrok) && m != Some(FixedGrok)
  {
  }

  /** Correcting twice is correcting once: neither correction is itself broken. */
  lemma NormalisedModelIdempotent(m: Option<string>)
    ensures NormalisedModel(NormalisedModel(m)) == NormalisedModel(m)
  {
    assert FixedGemini != BrokenGemini && FixedGemini != BrokenGrok by {
      assert |FixedGemini| != |BrokenGemini|;
      assert FixedGemini[0] != BrokenGrok[0];
    }
    assert FixedGrok != BrokenGemini && FixedGrok != BrokenGrok by {
      assert FixedGrok[0] != BrokenGemini[0];
      assert FixedGrok[0] != BrokenGrok[0];
    }
  }

  /** The text of the `ValueError` `int()` raises on a string that is not an
      integer: the string's `repr`, cut to its first 200 characters. */
  function InvalidLiteral(s: string): string {
    var shown := StrRepr(s);
    "invalid literal for int() with base 10: " + (if |shown| > 200 then shown[..200] else shown)
  }

  /** `int(os.getenv(key, default))`: an unset variable gives the default, a
      set one must parse as an integer. */
  function IntSetting(env: Env, key: string, default: int): (r: Outcome<int>)
    ensures key !in env ==> r == Returned(default)
    ensures key in env ==> (r.Returned? <==> ParseInt(env[key]).Some?)
    ensures key in env && r.Returned? ==> Some(r.value) == ParseInt(env[key])
    ensures r.Raised? ==> r.error == InvalidLiteral(env[key])
  {
    if key !in env then Returned(default)
    else match ParseInt(env[key])
      case Some(i) => Returned(i)
      case None => Raised(InvalidLiteral(env[key]))
  }

  /** Writing an integer into the environment reads it back. */
  lemma IntSettingOfIntToString(env: Env, key: string, default: int, i: int)
    ensures IntSetting(env[key := IntToString(i)], key, default) == Returned(i)
  {
    ParseIntOfIntToString(i);
  }

  class Settings {
    var appEnv: string
    var llmModel: Option<string>
    var host: string
    var port: int
    var logLevel: string
    var heartbeatInterval: int

    /** Every field holds what `reload` reads from `env`. */
    ghost predicate Loaded(env: Env)
      reads this
    {
      && appEnv == GetEnvOr(env, "APP_ENV", DefaultAppEnv)
      && llmModel == NormalisedModel(GetEnv(env, "LLM_MODEL"))
      && host == GetEnvOr(env, "HOST", DefaultHost)
      && IntSetting(env, "PORT", DefaultPort) == Returned(port)
      && logLevel == GetEnvOr(env, "LOG_LEVEL", DefaultLogLevel)
      && IntSetting(env, "HEARTBEAT_INTERVAL", DefaultHeartbeatInterval) == Returned(heartbeatInterval)
    }

    /** A settings object before its first `reload`. */
    constructor Blank()
      ensures appEnv == DefaultAppEnv && llmModel == None && host == DefaultHost
      ensures port == DefaultPort && logLevel == DefaultLogLevel && heartbeatInterval == DefaultHeartbeatInterval
    {
      appEnv := DefaultAppEnv;
      llmModel := None;
      host := DefaultHost;
      port := DefaultPort;
      logLevel := DefaultLogLevel;
      heartbeatInterval := DefaultHeartbeatInterval;
    }

    /** `Settings()`: construction is one `reload`, so it raises exactly when
        `PORT` or `HEARTBEAT_INTERVAL` is set to something that is not an
        integer. */
    static method New(env: Env) returns (r: Outcome<Settings>)
      ensures r.Returned? <==> IntSetting(env, "PORT", DefaultPort).Returned? &&
                               IntSetting(env, "HEARTBEAT_INTERVAL", DefaultHeartbeatInterval).Returned?
      ensures r.Returned? ==> fresh(r.value) && r.value.Loaded(env)
    {
      var s := new Settings.Blank();
      var raised := s.Reload(env);
      if raised.Some? {
        return Raised(raised.value);
      }
      return Returned(s);
    }

    /** `reload`: the fields are assigned in order, so a malformed `PORT`
        raises after `app_env`, `llm_model` and `host` were set and before
        anything after it; a malformed `HEARTBEAT_INTERVAL` leaves only the
        interval itself unchanged. */
    method Reload(env: Env) returns (raised: Option<string>)
      modifies this
      ensures appEnv == GetEnvOr(env, "APP_ENV", DefaultAppEnv)
      ensures llmModel == NormalisedModel(GetEnv(env, "LLM_MODEL"))
      ensures host == GetEnvOr(env, "HOST", DefaultHost)
      ensures match IntSetting(env, "PORT", DefaultPort)
        case Raised(e) =>
          && raised == Some(e)
          && port == old(port) && logLevel == old(logLevel) && heartbeatInterval == old(heartbeatInterval)
        case Returned(p) =>
          && port == p && logLevel == GetEnvOr(env, "LOG_LEVEL", DefaultLogLevel)
          && match IntSetting(env, "HEARTBEAT_INTERVAL", DefaultHeartbeatInterval)
             case Raised(e) => raised == Some(e) && heartbeatInterval == old(heartbeatInterval)
             case Returned(h) => raised == None && heartbeatInterval == h
      ensures raised.None? <==> Loaded(env)
    {
      appEnv := GetEnvOr(env, "APP_ENV", DefaultAppEnv);
      llmModel := GetEnv(env, "LLM_MODEL");
      if llmModel == Some(BrokenGemini) {
        llmModel := Some(FixedGemini);
      } else if llmModel == Some(BrokenGrok) {
        llmModel := Some(FixedGrok);
      }
      host := GetEnvOr(env, "HOST", DefaultHost);
      var p := IntSetting(env, "PORT", DefaultPort);
      if p.Raised? {
        return Some(p.error);
      }
      port := p.value;
      logLevel := GetEnvOr(env, "LOG_LEVEL", DefaultLogLevel);
      var h := IntSetting(env, "HEARTBEAT_INTERVAL", DefaultHeartbeatInterval);
      if h.Raised? {
        return Some(h.error);
      }
      heartbeatInterval := h.value;
      raised := None;
    }

    /** `is_dev`: development mode is never the default environment. */
    predicate IsDev()
      reads this
      ensures IsDev() ==> appEnv != DefaultAppEnv
    {
      appEnv == DevelopmentEnv
    }

    /** Development mode is never a default: once loaded, the settings are in
        development mode exactly when `APP_ENV` says `development`. */
    lemma DevOnlyWhenAsked(env: Env)
      requires Loaded(env)
      ensures IsDev() <==> "APP_ENV" in env && env["APP_ENV"] == DevelopmentEnv
    {
      assert DefaultAppEnv[0] != DevelopmentEnv[0];
    }
  }
}
