/**
 * The `start` command: merge the command-line options over the configuration
 * file, apply the process-wide effects the merged configuration asks for,
 * check the two required fields and hand over to the test-generation agent.
 *
 * The merged configuration is an object updated field by field, as the source
 * updates its dictionary; `Merge`, `EnvAfter` and `Expected` say what the
 * command leaves behind, and the lemmas at the end say what that means.
 */
module Start {

  import opened Wrappers
  import opened Strings
  import opened Platform

  /** A value read from the configuration file or put there by an option. */
  datatype Value = Text(s: string) | Flag(b: bool)

  /** `str(v)` in Python. */
  function Stringify(v: Value): string
  {
    match v
    case Text(s) => s
    case Flag(b) => if b then "True" else "False"
  }

  /** `str(v).lower() == "true"`. */
  predicate IsTrue(v: Value)
  {
    Lower(Stringify(v)) == "true"
  }

  /** `str(v).lower() == "debug"`. */
  predicate IsDebug(v: Value)
  {
    Lower(Stringify(v)) == "debug"
  }

  /** The `[agent]` table; `None` is a key the file does not set. */
  datatype AgentTable = AgentTable(
    prompt: Option<Value>, url: Option<Value>, language: Option<Value>, framework: Option<Value>)

  /** The `[config]` table; `None` is a key the file does not set. */
  datatype ConfigTable = ConfigTable(headless: Option<Value>, logLevel: Option<Value>, clean: Option<Value>)

  /** The whole configuration. */
  datatype Settings = Settings(agent: AgentTable, config: ConfigTable)

  /** The command-line options; `prompt` and `url` are `None` when the function is called without them. */
  datatype CliArgs = CliArgs(
    prompt: Option<string>, url: Option<string>,
    clean: bool, debug: bool, headless: bool,
    language: string, framework: string)

  /** The options as a user who passes only `--prompt` and `--url` gets them. */
  function DefaultArgs(prompt: string, url: string): CliArgs
  {
    CliArgs(Some(prompt), Some(url), false, false, false, "python", "playwright")
  }

  /** A required field of the `[agent]` table. */
  datatype Field = Url | Prompt

  /** `config["agent"].get(item)`. */
  function Lookup(agent: AgentTable, f: Field): Option<Value>
  {
    match f
    case Url => agent.url
    case Prompt => agent.prompt
  }

  /** The required fields, in the order they are checked. */
  const Required: seq<Field> := [Url, Prompt]

  /** How a run of `start` ends. */
  datatype End =
    | KeyMissing(key: string)                   // KeyError reading a [config] key
    | Exited(missing: Field)                    // the message naming the field, then typer.Exit
    | AgentCalled(prompt: Value, url: Value)    // agent(prompt=..., url=...)

  /** How a run ends, and whether it cleared the test directory on the way. */
  datatype Run = Run(end: End, cleared: bool)

  // ----- The specification -----

  /** The configuration after the options are merged over the file's. */
  function Merge(cli: CliArgs, file: Settings): Settings
  {
    var a := file.agent;
    var c := file.config;
    Settings(
      AgentTable(
        if cli.prompt.Some? then Some(Text(cli.prompt.value)) else a.prompt,
        if cli.url.Some? then Some(Text(cli.url.value)) else a.url,
        if cli.language != "" then Some(Text(cli.language)) else a.language,
        if cli.framework != "" then Some(Text(cli.framework)) else a.framework),
      ConfigTable(
        if cli.headless then Some(Flag(true)) else c.headless,
        if cli.debug then Some(Text("DEBUG")) else c.logLevel,
        if cli.clean then Some(Flag(true)) else c.clean))
  }

  /** Where the first field of `fields` that `agent` does not set stands; `|fields|` when every one is set. */
  function FirstMissing(agent: AgentTable, fields: seq<Field>): (k: nat)
    ensures k <= |fields|
    ensures forall j :: 0 <= j < k ==> Lookup(agent, fields[j]).Some?
    ensures k < |fields| ==> Lookup(agent, fields[k]).None?
  {
    if fields == [] || Lookup(agent, fields[0]).None? then 0
    else 1 + FirstMissing(agent, fields[1..])
  }

  /** The required field a run stops for, if any. */
  function MissingField(agent: AgentTable): Option<Field>
  {
    var k := FirstMissing(agent, Required);
    if k < |Required| then Some(Required[k]) else None
  }

  /** The logger's level is raised to debug. */
  predicate DebugLogging(c: ConfigTable)
  {
    c.logLevel.Some? && IsDebug(c.logLevel.value)
  }

  /** The environment after the log-level and headless checks, which stop at the first missing key. */
  function EnvAfter(env: map<string, string>, c: ConfigTable): map<string, string>
  {
    if c.logLevel.None? then env
    else
      var logged := if IsDebug(c.logLevel.value) then env["LOG_LEVEL" := "DEBUG"] else env;
      if c.headless.Some? && IsTrue(c.headless.value) then logged["HEADLESS" := "true"] else logged
  }

  /** The first `[config]` key the effects read that `c` does not set: reading it raises `KeyError`. */
  function MissingKey(c: ConfigTable): (k: Option<string>)
    ensures k == Some("log_level") <==> c.logLevel.None?
    ensures k == Some("headless") <==> c.logLevel.Some? && c.headless.None?
    ensures k == Some("clean") <==> c.logLevel.Some? && c.headless.Some? && c.clean.None?
    ensures k.None? <==> c.logLevel.Some? && c.headless.Some? && c.clean.Some?
  {
    if c.logLevel.None? then Some("log_level")
    else if c.headless.None? then Some("headless")
    else if c.clean.None? then Some("clean")
    else None
  }

  /** The test directory is cleared: every key was read and `clean` reads "true". */
  predicate Clears(c: ConfigTable)
  {
    MissingKey(c).None? && IsTrue(c.clean.value)
  }

  /** How a run with merged configuration `m` ends. */
  function Expected(m: Settings): (r: Run)
    ensures r.end.AgentCalled? <==>
              && m.config.logLevel.Some? && m.config.headless.Some? && m.config.clean.Some?
              && m.agent.url.Some? && m.agent.prompt.Some?
    ensures r.end.AgentCalled? ==> r.end.prompt == m.agent.prompt.value && r.end.url == m.agent.url.value
    ensures r.cleared <==> m.config.logLevel.Some? && m.config.headless.Some? && m.config.clean.Some?
                           && IsTrue(m.config.clean.value)
  {
    match MissingKey(m.config)
    case Some(key) => Run(KeyMissing(key), false)
    case None =>
      var end := match MissingField(m.agent)
                 case Some(f) => Exited(f)
                 case None =>
                   assert Lookup(m.agent, Required[0]).Some? && Lookup(m.agent, Required[1]).Some?;
                   AgentCalled(m.agent.prompt.value, m.agent.url.value);
      Run(end, Clears(m.config))
  }

  // ----- The command -----

  /** The configuration dictionary `start` works on. */
  class Config {
    var prompt: Option<Value>
    var url: Option<Value>
    var language: Option<Value>
    var framework: Option<Value>
    var headless: Option<Value>
    var logLevel: Option<Value>
    var clean: Option<Value>

    /** `read_config()`: a configuration as the file gives it. */
    constructor (file: Settings)
      ensures Snapshot() == file
    {
      prompt, url := file.agent.prompt, file.agent.url;
      language, framework := file.agent.language, file.agent.framework;
      headless, logLevel, clean := file.config.headless, file.config.logLevel, file.config.clean;
    }

    function Snapshot(): Settings
      reads this
    {
      Settings(AgentTable(prompt, url, language, framework), ConfigTable(headless, logLevel, clean))
    }
  }

  /** The loop over the required fields: the first one the `[agent]` table does not set. */
  method FindMissing(agent: AgentTable) returns (missing: Option<Field>)
    ensures missing == MissingField(agent)
  {
    var i := 0;
    while i < |Required|
      invariant 0 <= i <= |Required|
      invariant forall j :: 0 <= j < i ==> Lookup(agent, Required[j]).Some?
    {
      if Lookup(agent, Required[i]).None? {
        return Some(Required[i]);
      }
      i := i + 1;
    }
    return None;
  }

  /** The options take precedence over the file: each is written into `config` by its own rule. */
  method ApplyOptions(config: Config, cli: CliArgs)
    modifies config
    ensures config.Snapshot() == Merge(cli, old(config.Snapshot()))
  {
    if cli.prompt.Some? {
      config.prompt := Some(Text(cli.prompt.value));
    }
    if cli.url.Some? {
      config.url := Some(Text(cli.url.value));
    }
    if cli.headless {
      config.headless := Some(Flag(true));
    }
    if cli.debug {
      config.logLevel := Some(Text("DEBUG"));
    }
    if cli.clean {
      config.clean := Some(Flag(true));
    }
    if cli.language != "" {
      config.language := Some(Text(cli.language));
    }
    if cli.framework != "" {
      config.framework := Some(Text(cli.framework));
    }
  }

  /**
   * `start(...)` with the file's configuration `file` and the test directory
   * `testDir`; the agent call is recorded in the returned `Run`.
   */
  method Start(cli: CliArgs, file: Settings, testDir: Path, host: Host) returns (run: Run)
    modifies host
    ensures run == Expected(Merge(cli, file))
    ensures host.env == EnvAfter(old(host.env), Merge(cli, file).config)
    ensures host.loggerLevel == if DebugLogging(Merge(cli, file).config) then "DEBUG" else old(host.loggerLevel)
    ensures host.disk == if run.cleared then WithoutVisible(old(host.disk), testDir) else old(host.disk)
    ensures host.trace == old(host.trace) + if run.cleared then [RemovedVisible(testDir)] else []
  {
    var config := new Config(file);
    ApplyOptions(config, cli);

    var key, cleared := ApplyConfig(config, testDir, host);
    if key.Some? {
      return Run(KeyMissing(key.value), false);
    }

    // the required fields
    var missing := FindMissing(config.Snapshot().agent);
    if missing.Some? {
      return Run(Exited(missing.value), cleared);
    }
    assert Lookup(config.Snapshot().agent, Required[0]).Some?;
    assert Lookup(config.Snapshot().agent, Required[1]).Some?;
    return Run(AgentCalled(config.prompt.value, config.url.value), cleared);
  }

  /**
   * The effects of the merged configuration, read key by key: the log level,
   * then headless, then clean; a missing key stops the run where it is read.
   */
  method ApplyConfig(config: Config, testDir: Path, host: Host) returns (missingKey: Option<string>, cleared: bool)
    modifies host
    ensures missingKey == MissingKey(config.Snapshot().config)
    ensures cleared <==> Clears(config.Snapshot().config)
    ensures host.env == EnvAfter(old(host.env), config.Snapshot().config)
    ensures host.loggerLevel == if DebugLogging(config.Snapshot().config) then "DEBUG" else old(host.loggerLevel)
    ensures host.disk == if cleared then WithoutVisible(old(host.disk), testDir) else old(host.disk)
    ensures host.trace == old(host.trace) + if cleared then [RemovedVisible(testDir)] else []
  {
    cleared := false;
    if config.logLevel.None? {
      return Some("log_level"), false;
    }
    if IsDebug(config.logLevel.value) {
      host.loggerLevel := "DEBUG";
      host.env := host.env["LOG_LEVEL" := "DEBUG"];
    }
    if config.headless.None? {
      return Some("headless"), false;
    }
    if IsTrue(config.headless.value) {
      host.env := host.env["HEADLESS" := "true"];
    }
    if config.clean.None? {
      return Some("clean"), false;
    }
    if IsTrue(config.clean.value) {
      host.disk := WithoutVisible(host.disk, testDir);
      host.trace := host.trace + [RemovedVisible(testDir)];
      cleared := true;
    }
    missingKey := None;
  }

  // ----- What `start` promises -----

  /**
   * A `--prompt` or `--url` that is given replaces the file's value, even when
   * it is empty; one that is absent leaves the file's value.
   */
  lemma PromptAndUrlOverride(cli: CliArgs, file: Settings)
    ensures cli.prompt.Some? ==> Merge(cli, file).agent.prompt == Some(Text(cli.prompt.value))
    ensures cli.prompt.None? ==> Merge(cli, file).agent.prompt == file.agent.prompt
    ensures cli.url.Some? ==> Merge(cli, file).agent.url == Some(Text(cli.url.value))
    ensures cli.url.None? ==> Merge(cli, file).agent.url == file.agent.url
    ensures cli.prompt == Some("") ==> Merge(cli, file).agent.prompt == Some(Text(""))
  {
  }

  /** `--headless` and `--clean` are written only when given; leaving them off never changes the file's value. */
  lemma FlagsOnlyOverrideWhenTrue(cli: CliArgs, file: Settings)
    ensures cli.headless ==> Merge(cli, file).config.headless == Some(Flag(true))
    ensures !cli.headless ==> Merge(cli, file).config.headless == file.config.headless
    ensures cli.clean ==> Merge(cli, file).config.clean == Some(Flag(true))
    ensures !cli.clean ==> Merge(cli, file).config.clean == file.config.clean
  {
  }

  /** A file that turns `headless` or `clean` on cannot be overruled from the command line. */
  lemma FileFlagsCannotBeTurnedOff(cli: CliArgs, file: Settings)
    ensures file.config.headless.Some? && IsTrue(file.config.headless.value) ==>
              Merge(cli, file).config.headless.Some? && IsTrue(Merge(cli, file).config.headless.value)
    ensures file.config.clean.Some? && IsTrue(file.config.clean.value) ==>
              Merge(cli, file).config.clean.Some? && IsTrue(Merge(cli, file).config.clean.value)
  {
    LowerOfKnownWords();
  }

  /** `--debug` sets the log level to exactly `"DEBUG"`; without it the file's level stays. */
  lemma DebugSetsLogLevel(cli: CliArgs, file: Settings)
    ensures cli.debug ==> Merge(cli, file).config.logLevel == Some(Text("DEBUG"))
    ensures !cli.debug ==> Merge(cli, file).config.logLevel == file.config.logLevel
  {
  }

  /**
   * A non-empty `--language` or `--framework` replaces the file's value; since
   * their defaults are non-empty, a run with default options always uses
   * `python` and `playwright`, whatever the file says.
   */
  lemma LanguageAndFrameworkOverride(cli: CliArgs, file: Settings, prompt: string, url: string)
    ensures cli.language != "" ==> Merge(cli, file).agent.language == Some(Text(cli.language))
    ensures cli.language == "" ==> Merge(cli, file).agent.language == file.agent.language
    ensures cli.framework != "" ==> Merge(cli, file).agent.framework == Some(Text(cli.framework))
    ensures cli.framework == "" ==> Merge(cli, file).agent.framework == file.agent.framework
    ensures Merge(DefaultArgs(prompt, url), file).agent.language == Some(Text("python"))
    ensures Merge(DefaultArgs(prompt, url), file).agent.framework == Some(Text("playwright"))
  {
  }

  /** Merging the same options a second time changes nothing. */
  lemma MergeIdempotent(cli: CliArgs, file: Settings)
    ensures Merge(cli, Merge(cli, file)) == Merge(cli, file)
  {
  }

  /** `env` and `env'` agree on the variable `k`: both lack it or both hold the same text. */
  predicate SameAt(env: map<string, string>, env': map<string, string>, k: string)
  {
    (k in env <==> k in env') && (k in env ==> env[k] == env'[k])
  }

  /**
   * `LOG_LEVEL=DEBUG` is set exactly when the merged log level reads "debug",
   * `HEADLESS=true` exactly when the merged headless value reads "true" (and
   * the log level is present, since reading it comes first); otherwise those
   * variables keep what they held, and no other variable changes.
   */
  lemma EnvironmentFollowsConfig(env: map<string, string>, c: ConfigTable)
    ensures DebugLogging(c) ==> "LOG_LEVEL" in EnvAfter(env, c) && EnvAfter(env, c)["LOG_LEVEL"] == "DEBUG"
    ensures !DebugLogging(c) ==> SameAt(env, EnvAfter(env, c), "LOG_LEVEL")
    ensures c.logLevel.Some? && c.headless.Some? && IsTrue(c.headless.value) ==>
              "HEADLESS" in EnvAfter(env, c) && EnvAfter(env, c)["HEADLESS"] == "true"
    ensures !(c.logLevel.Some? && c.headless.Some? && IsTrue(c.headless.value)) ==>
              SameAt(env, EnvAfter(env, c), "HEADLESS")
    ensures forall k :: k != "LOG_LEVEL" && k != "HEADLESS" ==> SameAt(env, EnvAfter(env, c), k)
  {
  }

  /** `--debug` always ends with `LOG_LEVEL=DEBUG` and the logger at debug. */
  lemma DebugFlagReachesEnvironment(cli: CliArgs, file: Settings, env: map<string, string>)
    requires cli.debug
    ensures DebugLogging(Merge(cli, file).config)
    ensures EnvAfter(env, Merge(cli, file).config)["LOG_LEVEL"] == "DEBUG"
  {
    LowerOfKnownWords();
  }

  /** `--headless` ends with `HEADLESS=true` unless reading the log level failed first. */
  lemma HeadlessFlagReachesEnvironment(cli: CliArgs, file: Settings, env: map<string, string>)
    requires cli.headless && Merge(cli, file).config.logLevel.Some?
    ensures "HEADLESS" in EnvAfter(env, Merge(cli, file).config)
    ensures EnvAfter(env, Merge(cli, file).config)["HEADLESS"] == "true"
  {
    LowerOfKnownWords();
  }

  /**
   * The required fields are checked in the order `url`, `prompt`: a run with
   * both missing names `url`, and an empty string counts as present.
   */
  lemma UrlCheckedBeforePrompt(m: Settings)
    requires m.config.logLevel.Some? && m.config.headless.Some? && m.config.clean.Some?
    ensures m.agent.url.None? ==> Expected(m).end == Exited(Url)
    ensures m.agent.url.Some? && m.agent.prompt.None? ==> Expected(m).end == Exited(Prompt)
    ensures m.agent.url == Some(Text("")) && m.agent.prompt == Some(Text("")) ==>
              Expected(m).end == AgentCalled(Text(""), Text(""))
  {
    if m.agent.url.None? {
      assert Lookup(m.agent, Required[0]).None?;
    } else if m.agent.prompt.None? {
      assert Lookup(m.agent, Required[0]).Some?;
    }
  }

  /**
   * The test directory is cleared before the required fields are checked, so
   * a run that then stops for a missing field has still cleared it.
   */
  lemma ClearHappensBeforeValidation(m: Settings)
    requires m.config.logLevel.Some? && m.config.headless.Some?
    requires m.config.clean == Some(Flag(true)) && m.agent.url.None?
    ensures Expected(m) == Run(Exited(Url), true)
  {
    LowerOfKnownWords();
    UrlCheckedBeforePrompt(m);
  }

  /**
   * The file sets the url and an empty prompt; the user passes only
   * `--prompt "check login flow"`: the agent gets that prompt and the file's url.
   */
  lemma PromptFromCommandLineScenario(c: ConfigTable)
    requires c.logLevel.Some? && c.headless.Some? && c.clean.Some?
    ensures var file := Settings(AgentTable(Some(Text("")), Some(Text("http://example.com")), None, None), c);
            var cli := CliArgs(Some("check login flow"), None, false, false, false, "python", "playwright");
            && Merge(cli, file).agent.prompt == Some(Text("check login flow"))
            && Merge(cli, file).agent.url == Some(Text("http://example.com"))
            && Expected(Merge(cli, file)).end == AgentCalled(Text("check login flow"), Text("http://example.com"))
  {
  }

  /**
   * Clearing is idempotent: a second clear of the test directory finds only dot-entries
   * and leaves the disk as the first one left it, so running `start` again
   * with clean set clears nothing more.
   */
  lemma ClearTwiceIsClearOnce(disk: Disk, root: Path)
    ensures WithoutVisible(WithoutVisible(disk, root), root) == WithoutVisible(disk, root)
  {
    var once := WithoutVisible(disk, root);
    var twice := WithoutVisible(once, root);
    assert twice.Keys == once.Keys;
    if root in disk {
      assert HiddenOnly(once[root]) == once[root];
    }
  }
}
