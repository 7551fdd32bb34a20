/**
 * Configuration (src/config.rs; src/main.rs:36-82 holds the same text): the
 * completions URL, the built-in model list and the fallback decision of
 * `load_or_create_config`, taken over the outcome of the file-system steps.
 */
module Config {
  import opened Wrappers

  datatype AppConfig = AppConfig(openaiApiKey: Option<string>, apiUrl: string, models: Option<seq<string>>)

  const DefaultApiUrl: string := "https://api.openai.com"
  const CompletionsPath: string := "/v1/chat/completions"

  /** The configuration `load_or_create_config` falls back to. */
  function Fallback(): (c: AppConfig)
    ensures c.openaiApiKey.None? && c.models.None?
    ensures c.apiUrl == "https://api.openai.com"
    ensures CompletionsUrl(c.apiUrl) == "https://api.openai.com/v1/chat/completions"
  {
    AppConfig(None, DefaultApiUrl, None)
  }

  /** `get_completions_url`: the base URL followed by the path, with no slash normalisation. */
  function CompletionsUrl(base: string): (r: string)
    ensures |r| == |base| + 20
    ensures base <= r && r[|base|..] == "/v1/chat/completions"
  {
    base + CompletionsPath
  }

  /** Distinct base URLs give distinct endpoints. */
  lemma CompletionsUrlInjective(a: string, b: string)
    requires CompletionsUrl(a) == CompletionsUrl(b)
    ensures a == b
  {
    assert a == CompletionsUrl(a)[..|a|];
  }

  /** A base URL ending in "/" yields a double slash before "v1". */
  lemma TrailingSlashDoubles(base: string)
    ensures CompletionsUrl(base + "/") == base + "//v1/chat/completions"
  {
  }

  /** `default_models`: four distinct built-in names, "gemini-2.0-flash" first. */
  function DefaultModels(): (r: seq<string>)
    ensures |r| == 4 && r[0] == "gemini-2.0-flash"
    ensures r[1..] == ["gpt-4.1", "gpt-4o-mini", "gpt-4o"]
    ensures forall i, j :: 0 <= i < j < |r| ==> r[i] != r[j]
  {
    ["gemini-2.0-flash", "gpt-4.1", "gpt-4o-mini", "gpt-4o"]
  }

  /**
   * What the file-system steps of `load_or_create_config` found: no config
   * directory, no file (one is then written), a file that could not be read,
   * or its contents together with the outcome of TOML parsing.
   */
  datatype ConfigFile = NoConfigDir | Missing | Unreadable | Contents(parsed: Option<AppConfig>)

  /** `load_or_create_config`: the parsed file, or else the fallback. */
  function LoadOrCreate(file: ConfigFile): (c: AppConfig)
    ensures file.Contents? && file.parsed.Some? ==> c == file.parsed.value
    ensures !(file.Contents? && file.parsed.Some?) ==> c == Fallback()
  {
    match file
    case NoConfigDir => Fallback()
    case Missing => Fallback()
    case Unreadable => Fallback()
    case Contents(parsed) => parsed.UnwrapOr(Fallback())
  }

  /** `config.models.clone().unwrap_or_else(default_models)`. */
  function ModelsOrDefault(config: AppConfig): (r: seq<string>)
    ensures config.models.Some? ==> r == config.models.value
    ensures config.models.None? ==> r == DefaultModels()
    ensures config.models.None? ==> |r| == 4 && r[0] == "gemini-2.0-flash"
  {
    config.models.UnwrapOr(DefaultModels())
  }

  /** `models.get(0).cloned().unwrap_or_default()`. */
  function FirstOrEmpty(models: seq<string>): (r: string)
    ensures models != [] ==> r == models[0] && r in models
    ensures models == [] ==> r == ""
  {
    if models == [] then "" else models[0]
  }

  /** Without a `models` entry the session starts on "gemini-2.0-flash". */
  lemma FallbackSelectsGemini(file: ConfigFile)
    requires LoadOrCreate(file).models.None?
    ensures FirstOrEmpty(ModelsOrDefault(LoadOrCreate(file))) == "gemini-2.0-flash"
  {
  }
}
