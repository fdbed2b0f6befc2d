/** How `ParseOptions` (internal/runner/options.go) turns flags, standard input, the
    environment and the config file into the options the runner reads. Flag parsing,
    stdin detection, the environment lookup and YAML loading are libraries; their
    results are the inputs here. */
module Options {
  import opened Wrappers
  import opened Strings

  /** The options the runner reads (the output-only flags are not modelled). */
  datatype Options = Options(
    openaiApiKey: string,
    prompt: string,
    gpt3: bool,
    gpt4: bool,
    model: string,
    listModels: bool,
    stream: bool,
    topP: real,
    temperature: real,
    system: seq<string>)

  /** What the flag parser produced. `None` for `gpt3`/`gpt4` means the flag was not
      given; the other flags default to their zero value. `prompt` holds the `-p`
      values, `args` the positional arguments. */
  datatype Flags = Flags(
    prompt: seq<string>,
    args: seq<string>,
    openaiApiKey: string,
    temperature: string,
    topP: string,
    gpt3: Option<bool>,
    gpt4: Option<bool>,
    model: string,
    listModels: bool,
    stream: bool,
    systemContext: seq<string>)

  /** What the process finds around it: the content of stdin when it is piped, the
      `OPENAI_API_KEY` variable when it exists, and the key that loading the config
      file sets, if it sets one. */
  datatype Host = Host(
    stdin: Option<string>,
    envApiKey: Option<string>,
    configApiKey: Option<string>)

  /** Flag defaults: `--gpt3` is on and `--gpt4` off unless given. */
  const DefaultGpt3: bool := true
  const DefaultGpt4: bool := false

  /** The prompt: piped stdin wins; otherwise the `-p` values joined by newline; and if
      that leaves it empty, the positional arguments joined by space. */
  function PromptFrom(promptFlags: seq<string>, stdin: Option<string>, args: seq<string>): string
  {
    var sourced := if stdin.Some? then stdin.value else Join(promptFlags, "\n");
    if sourced != "" then sourced else Join(args, " ")
  }

  /** A temperature or top-p: the parsed number when the text is non-empty and parses,
      and 0 (unset) otherwise. */
  function SamplingFrom(text: string, parseFloat: string -> Option<real>): real
  {
    if text != "" && parseFloat(text).Some? then parseFloat(text).value else 0.0
  }

  /** The API key: a non-empty flag value, else a non-empty `OPENAI_API_KEY`, else
      whatever loading the config file sets, else none. */
  function ApiKeyFrom(flag: string, env: Option<string>, config: Option<string>): string
  {
    if flag != "" then flag
    else if env.Some? && env.value != "" then env.value
    else if config.Some? then config.value
    else ""
  }

  /** The options `ParseOptions` produces. */
  function ResolvedOptions(flags: Flags, host: Host, parseFloat: string -> Option<real>): Options
  {
    Options(
      ApiKeyFrom(flags.openaiApiKey, host.envApiKey, host.configApiKey),
      PromptFrom(flags.prompt, host.stdin, flags.args),
      flags.gpt3.GetOr(DefaultGpt3),
      flags.gpt4.GetOr(DefaultGpt4),
      flags.model,
      flags.listModels,
      flags.stream,
      SamplingFrom(flags.topP, parseFloat),
      SamplingFrom(flags.temperature, parseFloat),
      flags.systemContext)
  }

  /** `ParseOptions`: the parsed flags, then the fixed sequence of conditional
      overwrites of the prompt, the sampling values and the API key. */
  method ParseOptions(flags: Flags, host: Host, parseFloat: string -> Option<real>) returns (options: Options)
    ensures options == ResolvedOptions(flags, host, parseFloat)
  {
    options := Options(
      flags.openaiApiKey, "", flags.gpt3.GetOr(DefaultGpt3), flags.gpt4.GetOr(DefaultGpt4),
      flags.model, flags.listModels, flags.stream, 0.0, 0.0, flags.systemContext);

    options := options.(prompt := Join(flags.prompt, "\n"));
    ghost var parsed := options;

    if flags.temperature != "" {
      var val := parseFloat(flags.temperature);
      if val.Some? {
        options := options.(temperature := val.value);
      }
    }
    if flags.topP != "" {
      var val := parseFloat(flags.topP);
      if val.Some? {
        options := options.(topP := val.value);
      }
    }

    assert options.temperature == SamplingFrom(flags.temperature, parseFloat);
    assert options.topP == SamplingFrom(flags.topP, parseFloat);
    assert options == parsed.(temperature := options.temperature, topP := options.topP);

    if host.stdin.Some? {
      options := options.(prompt := host.stdin.value);
    }

    if options.prompt == "" {
      options := options.(prompt := Join(flags.args, " "));
    }

    assert options.prompt == PromptFrom(flags.prompt, host.stdin, flags.args);

    if options.openaiApiKey == "" {
      if host.envApiKey.Some? {
        options := options.(openaiApiKey := host.envApiKey.value);
      }
    }

    if options.openaiApiKey == "" {
      if host.configApiKey.Some? {
        options := options.(openaiApiKey := host.configApiKey.value);
      }
    }
  }

  /** Prompt sourcing, case by case. */
  lemma PromptPrecedence(flags: Flags, host: Host, parseFloat: string -> Option<real>)
    ensures var prompt := ResolvedOptions(flags, host, parseFloat).prompt;
      && (host.stdin.Some? && host.stdin.value != "" ==> prompt == host.stdin.value)
      && (host.stdin.None? && !(|flags.prompt| == 0 || (|flags.prompt| == 1 && flags.prompt[0] == ""))
          ==> prompt == Join(flags.prompt, "\n"))
      && (host.stdin.None? && (|flags.prompt| == 0 || (|flags.prompt| == 1 && flags.prompt[0] == ""))
          ==> prompt == Join(flags.args, " "))
      && (host.stdin == Some("") ==> prompt == Join(flags.args, " "))
  {
  }

  /** An empty or unparseable temperature or top-p is left at 0; only a successful parse
      assigns it. */
  lemma SamplingRule(flags: Flags, host: Host, parseFloat: string -> Option<real>)
    ensures var o := ResolvedOptions(flags, host, parseFloat);
      && (flags.temperature == "" || parseFloat(flags.temperature).None? ==> o.temperature == 0.0)
      && (flags.temperature != "" && parseFloat(flags.temperature).Some?
          ==> o.temperature == parseFloat(flags.temperature).value)
      && (flags.topP == "" || parseFloat(flags.topP).None? ==> o.topP == 0.0)
      && (flags.topP != "" && parseFloat(flags.topP).Some? ==> o.topP == parseFloat(flags.topP).value)
  {
  }

  /** The API-key fallback chain: flag, then environment, then config file. */
  lemma ApiKeyPrecedence(flags: Flags, host: Host, parseFloat: string -> Option<real>)
    ensures var key := ResolvedOptions(flags, host, parseFloat).openaiApiKey;
      && (flags.openaiApiKey != "" ==> key == flags.openaiApiKey)
      && (flags.openaiApiKey == "" && host.envApiKey.Some? && host.envApiKey.value != ""
          ==> key == host.envApiKey.value)
      && (flags.openaiApiKey == "" && (host.envApiKey.None? || host.envApiKey.value == "")
          ==> key == host.configApiKey.GetOr(""))
      && (key == "" <==> flags.openaiApiKey == "" && host.envApiKey.GetOr("") == ""
                         && host.configApiKey.GetOr("") == "")
  {
  }

  /** With no model flag given, `--gpt3` is on and `--gpt4` is off. */
  lemma FlagDefaults(flags: Flags, host: Host, parseFloat: string -> Option<real>)
    requires flags.gpt3.None? && flags.gpt4.None?
    ensures ResolvedOptions(flags, host, parseFloat).gpt3
    ensures !ResolvedOptions(flags, host, parseFloat).gpt4
  {
  }
}
