# A model of the test agent's `start` command and its scaffolders

This project models the core of a command-line tool that generates end-to-end
browser tests. The core has two parts:

- **`start` command:** merges command-line options over a TOML configuration,
  applies the process-wide effects the merged configuration asks for, checks
  the two required fields and calls the test-generation agent. The effects
  are the logger level, the `LOG_LEVEL` and `HEADLESS` environment variables,
  and clearing the test directory.
- **Scaffolders:** prepare a Playwright or Cypress project in the test
  directory. They optionally delete it, recreate it, write the framework's
  template files and run the package manager. The toolchain probes sit
  alongside them and turn the outcome of running an external tool into the
  value the probe returns.

The files are:

- `start.dfy`:
  - the merged configuration is a `Config` object updated field by field
    (`ApplyOptions`);
  - `Start` is the command itself;
  - `Merge`, `EnvAfter` and `Expected` are the specification functions its
    contract is stated against;
  - the lemmas state precedence, environment, validation order and clearing.
- `platform.dfy`: the process state.
  - `Host` holds the environment, the logger level, the disk and an ordered
    trace of every filesystem change and external command.
  - The disk maps each directory's path to its files.
  - `WithoutTree` models `shutil.rmtree`; `WithoutVisible` models the shell
    command `rm -rf dir/*`.
- `scaffold.dfy`:
  - `DeleteEntireDir`, `ScaffoldPlaywright` and `ScaffoldCypress` are methods
    on the `Host`;
  - each is proved against a function giving its new disk and its trace;
  - the Cypress file texts are a `Templates` record: `CypressTemplates` holds
    the texts the source writes, and the lemmas hold for any texts;
  - lemmas cover ordering, the file sets and what is preserved.
- `toolchain.dfy`: the probes, as functions from a tool's outcome to the
  probe's completion.
- `strings.dfy`: `str.lower()` and `str.strip()`.
- `wrappers.dfy`: `Option`.

## Model

| member | source | states |
|---|---|---|
| Strings.Lower | src/agent/cli/start.py:66-73 | lower-casing keeps the length and maps each character through the ASCII lower-case map |
| Strings.LowerOfKnownWords | src/agent/cli/start.py:66-73 | "DEBUG"/"debug" lower to "debug", "True"/"true" to "true" and "False" to "false", which decides how option values and file values compare |
| Strings.IsSpace | src/agent/scaffold.py:25 | defines the characters `str.isspace()` accepts, which `str.strip()` removes: the ASCII controls 0x09-0x0D and 0x1C-0x1F, the space, and the Unicode separators |
| Strings.SpaceFrom | src/agent/scaffold.py:25 | the run of white space starting at a position ends at the returned position, which is the end of the text or a non-space character |
| Strings.SpaceBefore | src/agent/scaffold.py:25 | the run of white space ending at a position starts at the returned position, which is the lower bound or follows a non-space character |
| Strings.Strip | src/agent/scaffold.py:25 | the result occurs in the input surrounded only by white space, and neither starts nor ends with white space |
| Platform.WithoutTree | src/agent/scaffold.py:14 | removing a tree drops exactly the directory and everything below it; every other directory is unchanged, and a missing tree changes nothing |
| Platform.HiddenOnly | src/agent/cli/start.py:75 | keeps exactly the dot-files of a directory, with their contents |
| Platform.WithoutVisible | src/agent/cli/start.py:75 | `rm -rf dir/*` drops exactly the entries the glob matches, with everything below them; `dir` keeps only its dot-files; everything else is unchanged |
| Platform.Host.MakeDir | src/agent/scaffold.py:100 | the directory exists afterwards; an existing one keeps its files; the step is recorded |
| Platform.Host.WriteFile | src/agent/scaffold.py:196-197 | the named file holds the text, replacing any earlier contents; nothing else on disk changes |
| Platform.Host.Run | src/agent/scaffold.py:123-126 | the command and its working directory are appended to the trace, and the exit status is not looked at |
| Scaffold.DeleteEntireDir | src/agent/scaffold.py:8-14 | the disk loses the directory's whole tree (no error when absent), and the deletion is recorded |
| Scaffold.Prepared | src/agent/scaffold.py:95-100 | after the optional delete and the create, the test directory exists |
| Scaffold.Prepare | src/agent/scaffold.py:95-100 | the disk is the prepared disk, and the trace gains the optional delete followed by the create |
| Scaffold.LangOption | src/agent/scaffold.py:108 | defines the `--lang` value: `Typescript` for TypeScript, `js` for every other language; `PlaywrightLangFlag` proves the resulting flag |
| Scaffold.PlaywrightInit | src/agent/scaffold.py:109-121 | defines the eleven-word `npm init playwright` command, scaffolding into the working directory; `AddUuid` is the command of lines 129-132 |
| Scaffold.PlaywrightSteps | src/agent/scaffold.py:95-132 | defines the order of `scaffold_playwright`: optional delete, create, then (not for Python) the initializer and the UUID install; `PlaywrightCommandOrder` and `CleanDeletesFirst` prove what it promises |
| Scaffold.ScaffoldPlaywright | src/agent/scaffold.py:78-132 | the new disk is the prepared disk, and the trace gains the delete, create and two commands in the source's order (none for Python) |
| Scaffold.CypressFiles | src/agent/scaffold.py:196-265 | defines the file set per language, with the texts of a `Templates` record; `CypressTemplates` holds the texts of lines 197-264 character for character; `CypressFileSets` proves the per-language names |
| Scaffold.CypressSteps | src/agent/scaffold.py:182-271 | defines the order of `scaffold_cypress`: optional delete, create, then (not for Python) the writes in source order and `npm install`; `CypressInstallsLast` and `CypressWritesMatchFiles` prove what it promises |
| Scaffold.WriteCypressTemplates | src/agent/scaffold.py:195-265 | only the test directory changes, each template replacing its name, with the writes recorded in the source's order |
| Scaffold.WriteFilePair | src/agent/scaffold.py:196-223 | two consecutive writes into one directory: the second wins on a shared name, and both are recorded in order |
| Scaffold.ScaffoldCypress | src/agent/scaffold.py:168-271 | the new disk is the prepared disk with the templates written into the test directory, and the trace is delete, create, writes, `npm install` |
| Scaffold.WriteTemplatesIsOverlay | src/agent/scaffold.py:196-265 | writing the templates one at a time overlays the old files with the language's template set |
| Scaffold.CleanStartsEmpty | src/agent/scaffold.py:96-100 | with clean, the test directory is empty and nothing below it survives; directories outside it are untouched |
| Scaffold.KeepPreservesDisk | src/agent/scaffold.py:100 | without clean, an existing test directory is kept as it is, and a missing one is created empty |
| Scaffold.PythonOnlyPrepares | src/agent/scaffold.py:102-104 | for Python, both scaffolders stop after creating the directory: no file is written and no command is run |
| Scaffold.PlaywrightCommandOrder | src/agent/scaffold.py:106-132 | Playwright runs exactly two commands in the test directory: the initializer first, then the UUID install |
| Scaffold.PlaywrightLangFlag | src/agent/scaffold.py:108-119 | the initializer gets `--lang=Typescript` exactly for TypeScript and `--lang=js` for every other language |
| Scaffold.CypressFileSets | src/agent/scaffold.py:196-265 | TypeScript gets the base pair plus `cypress.config.ts` and `tsconfig.json`; JavaScript gets the pair plus `cypress.config.js`; any other non-Python language gets only the pair; each file holds its template |
| Scaffold.CypressWritesMatchFiles | src/agent/scaffold.py:196-265 | the names written into the test directory are exactly the template set's names |
| Scaffold.CypressInstallsLast | src/agent/scaffold.py:267-271 | Cypress runs one command, `npm install` in the test directory, as its very last step |
| Scaffold.CleanDeletesFirst | src/agent/scaffold.py:182-187 | with clean, both scaffolders delete first, no write precedes the create, and Cypress's directory then holds exactly the templates |
| Scaffold.CypressKeepsOtherFiles | src/agent/scaffold.py:196-265 | Cypress adds the template names to the directory and replaces same-named files; other files and other directories are unchanged |
| Toolchain.CheckForNode | src/agent/scaffold.py:17-30 | any failure, including output that does not decode, ends the CLI; otherwise the stripped version text is returned |
| Toolchain.CheckForTool | src/agent/scaffold.py:33-75 | the npm, Playwright and Cypress probes return the stripped version on success and `False` exactly on a failing or unlaunchable tool; undecodable output escapes as an exception |
| Toolchain.CheckForPlaywrightBrowsers | src/agent/scaffold.py:135-150 | returns a boolean that is true exactly when the install exits with status 0 |
| Toolchain.CheckForCypressInstallation | src/agent/scaffold.py:153-165 | as written: `None` when the install exits 0 and `False` otherwise |
| Toolchain.CypressInstallationAlwaysFalsy | src/agent/scaffold.py:153-165 | as written, the result is falsy whatever happened, so success and failure cannot be told apart by truth |
| Toolchain.CheckForCypressInstallationFixed | src/agent/scaffold.py:153-165 | corrected: a boolean that is true exactly when the install exits with status 0, i.e. exactly where the code as written returns `None` |
| Start.FirstMissing | src/agent/cli/start.py:78-83 | every field before the returned position is set, and the field at that position (if any) is not |
| Start.Stringify | src/agent/cli/start.py:66-73 | defines `str(v)`: a string is itself, a boolean is `True` or `False`, so `IsTrue` and `IsDebug` compare as the source does |
| Start.DefaultArgs | src/agent/cli/start.py:22-43 | defines the options a user gets when passing only `--prompt` and `--url`: the three flags off, language `python`, framework `playwright` |
| Start.Merge | src/agent/cli/start.py:49-63 | defines the configuration after the options are merged over the file; the precedence, true-only, cannot-turn-off and idempotence lemmas below are about it |
| Start.EnvAfter | src/agent/cli/start.py:66-71 | defines the environment after the log-level and headless checks, stopping at a missing key; `EnvironmentFollowsConfig` proves what it promises |
| Start.MissingKey | src/agent/cli/start.py:66-73 | names `log_level`, `headless` or `clean` exactly when it is the first of those keys, in read order, that the `[config]` table lacks, and nothing exactly when all three are set |
| Start.Expected | src/agent/cli/start.py:66-89 | the agent is called exactly when the three `[config]` keys and both required fields are present, with the merged prompt and url; the directory is cleared exactly when the keys are present and clean reads "true" |
| Start.Config.constructor | src/agent/cli/start.py:47 | the dictionary holds the configuration as the file gives it |
| Start.FindMissing | src/agent/cli/start.py:78-83 | the loop finds the first required field, in the order url, prompt, that the `[agent]` table lacks |
| Start.ApplyConfig | src/agent/cli/start.py:66-75 | reads log level, headless and clean in that order, stopping at the first missing key; the environment, the logger level, the disk and the trace change exactly as the read values ask |
| Start.ApplyOptions | src/agent/cli/start.py:49-63 | after the seven conditional assignments the dictionary equals the options merged over its old contents |
| Start.Start | src/agent/cli/start.py:14-89 | how the run ends, the new environment, the logger level, the disk after the optional clear and the trace all follow the merged configuration |
| Start.PromptAndUrlOverride | src/agent/cli/start.py:50-53 | a given `--prompt`/`--url` replaces the file's value, even when empty; an absent one keeps it |
| Start.FlagsOnlyOverrideWhenTrue | src/agent/cli/start.py:54-59 | `--headless` and `--clean` set their key to `True` when given and otherwise leave the file's value |
| Start.FileFlagsCannotBeTurnedOff | src/agent/cli/start.py:54-59 | a file value for headless or clean that reads "true" still reads "true" after merging, whatever the options |
| Start.DebugSetsLogLevel | src/agent/cli/start.py:56-57 | `--debug` sets the log level to "DEBUG"; without it the file's level stays |
| Start.LanguageAndFrameworkOverride | src/agent/cli/start.py:36-63 | a non-empty language or framework option replaces the file's value, so the defaults always give `python` and `playwright` |
| Start.MergeIdempotent | src/agent/cli/start.py:49-63 | merging the same options twice equals merging once |
| Start.EnvironmentFollowsConfig | src/agent/cli/start.py:66-71 | `LOG_LEVEL=DEBUG` is set exactly when the log level reads "debug"; `HEADLESS=true` exactly when headless reads "true" and the log level was read; otherwise every variable keeps its value |
| Start.DebugFlagReachesEnvironment | src/agent/cli/start.py:56-68 | with `--debug`, logging is at debug and `LOG_LEVEL` is "DEBUG" |
| Start.HeadlessFlagReachesEnvironment | src/agent/cli/start.py:54-71 | with `--headless`, `HEADLESS` is "true" whenever the log level key could be read |
| Start.UrlCheckedBeforePrompt | src/agent/cli/start.py:78-83 | with both fields missing the run stops naming url; with only prompt missing it names prompt; empty strings count as set |
| Start.ClearHappensBeforeValidation | src/agent/cli/start.py:73-83 | a run with clean set that then stops for a missing url has already cleared the test directory |
| Start.PromptFromCommandLineScenario | src/agent/cli/start.py:47-89 | a file with a url and an empty prompt, plus `--prompt "check login flow"`, calls the agent with that prompt and the file's url |
| Start.ClearTwiceIsClearOnce | src/agent/cli/start.py:73-75 | a second clear of the test directory leaves the disk exactly as the first left it, since only dot-entries remain |

## Left out

- Reading the configuration file:
  - TOML parsing and `read_config` are not part of this model. The file's contents are an input of `Start.Start`.
  - The file always has an `[agent]` and a `[config]` table. The `KeyError` raised when either table is missing is not modelled.
  - Values other than strings and booleans (numbers, arrays, tables) are not modelled.
- The test directory's location comes from the configuration module, which is not part of this model. It is a parameter of `Start.Start` and of the scaffolders.
- Option parsing by the CLI framework is not modelled:
  - It already demands `--prompt` and `--url`, so the `None` case of lines 50–53 arises only when `start` is called directly.
  - The `typer.Exit` mechanics are collapsed into the `Exited` and `ExitsCli` outcomes.
- The agent is not modelled: its call is recorded as the `AgentCalled` outcome.
- Logging calls, console messages (including the text naming a missing field) and `print(cmd)` in `scaffold_playwright` are not modelled. Only the logger's level is kept.
- Shell behaviour of `rm -rf`:
  - The shell's treatment of the test directory's path (spaces, metacharacters) is not modelled.
  - The case where the glob matches nothing is modelled only by its result.
- External commands:
  - What `npm init playwright`, `npm install` and `npx cypress install` do to the disk is not modelled: the trace records each command and its working directory.
  - A scaffolder's `subprocess.run` raising because `npm` cannot be launched is not modelled.
- Filesystem errors:
  - `mkdir` failing for a missing parent or an existing file, and `open` or `write` errors, are not modelled.
  - Paths are taken as normalised strings; `Path(...)` conversion is not modelled.
- Toolchain probes: running the tool itself is not modelled. The outcome of the run (output, exit status, launch failure) is the probe's input.
- Strings.Lower: lower-cases ASCII letters only. Python's `str.lower()` maps every Unicode capital, but no non-ASCII character lower-cases to a letter of "debug" or "true". So every comparison in the core has the same outcome.

## Findings

| source | as written | input that shows it | evidently intended | confidence | as-written member | corrected member |
|---|---|---|---|---|---|---|
| src/agent/scaffold.py:153-165 | `check_for_cypress_installation` has no `return True` after a successful run, so it returns `None` on success and `False` on failure | an install that exits with status 0: the result is `None`, falsy like the `False` of a failed install | return `True` on success, as `check_for_playwright_browsers` does at line 150 | medium, not executed | Toolchain.CypressInstallationAlwaysFalsy | Toolchain.CheckForCypressInstallationFixed |
