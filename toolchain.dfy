/**
 * The toolchain probes of the scaffolder. Each runs one external command and
 * turns what happened into a Python return value (or ends the CLI); the model
 * takes what happened as an input and gives the value the probe returns.
 */
module Toolchain {

  import Strings

  /** What running an external tool can end in, as the probe sees it. */
  datatype ToolRun =
    | Succeeded(stdout: string)  // exit status 0; its output decodes as UTF-8
    | Undecodable                // exit status 0, but the output is not valid UTF-8
    | NonZeroExit                // subprocess.CalledProcessError
    | LaunchFailed               // OSError, e.g. the executable is not on the PATH

  /** A Python value a probe returns. */
  datatype Returned = Text(s: string) | Bool(b: bool) | NoneValue

  /** How a probe ends: it returns, it ends the CLI with `typer.Exit`, or an exception escapes it. */
  datatype Completion = Returns(value: Returned) | ExitsCli | Raises(exception: string)

  /** Python truthiness of a returned value. */
  predicate Truthy(v: Returned)
  {
    match v
    case Text(s) => s != []
    case Bool(b) => b
    case NoneValue => false
  }

  /** The command each version probe runs. */
  const NodeVersion: seq<string> := ["node", "-v"]
  const NpmVersion: seq<string> := ["npm", "-v"]
  const PlaywrightVersion: seq<string> := ["playwright", "--version"]
  const CypressVersion: seq<string> := ["cypress", "--version"]

  /** The commands the two installation probes run, in the test directory. */
  const PlaywrightBrowsers: seq<string> := ["playwright", "install", "chromium"]
  const CypressBinary: seq<string> := ["npx", "--yes", "cypress", "install"]

  /**
   * `check_for_node`: the stripped version text when `node -v` succeeds;
   * any failure at all ends the CLI, since nothing else works without Node.js.
   */
  function CheckForNode(run: ToolRun): (c: Completion)
    ensures c.ExitsCli? <==> !run.Succeeded?
    ensures run.Succeeded? ==> c == Returns(Text(Strings.Strip(run.stdout)))
  {
    match run
    case Succeeded(out) => Returns(Text(Strings.Strip(out)))
    case _ => ExitsCli
  }

  /**
   * `check_for_npm`, `check_for_playwright` and `check_for_cypress`: the
   * stripped version text on success, `False` when the tool fails or cannot
   * be launched. Only those two errors are caught: output that does not
   * decode escapes as `UnicodeDecodeError`.
   */
  function CheckForTool(run: ToolRun): (c: Completion)
    ensures c.ExitsCli? == false
    ensures (run.NonZeroExit? || run.LaunchFailed?) <==> c == Returns(Bool(false))
    ensures run.Succeeded? ==> c == Returns(Text(Strings.Strip(run.stdout)))
    ensures c.Raises? <==> run.Undecodable?
  {
    match run
    case Succeeded(out) => Returns(Text(Strings.Strip(out)))
    case Undecodable => Raises("UnicodeDecodeError")
    case NonZeroExit => Returns(Bool(false))
    case LaunchFailed => Returns(Bool(false))
  }

  /** The command exited with status 0 (its output is never decoded by the installation probes). */
  predicate ExitedZero(run: ToolRun)
  {
    run.Succeeded? || run.Undecodable?
  }

  /** `check_for_playwright_browsers`: `True` when the install exits 0, `False` otherwise; it never raises. */
  function CheckForPlaywrightBrowsers(run: ToolRun): (c: Completion)
    ensures c.Returns? && c.value.Bool?
    ensures Truthy(c.value) <==> ExitedZero(run)
  {
    if ExitedZero(run) then Returns(Bool(true)) else Returns(Bool(false))
  }

  /** `check_for_cypress_installation` as written: `None` when the install exits 0, `False` otherwise. */
  function CheckForCypressInstallation(run: ToolRun): (c: Completion)
    ensures c.Returns?
    ensures ExitedZero(run) <==> c.value == NoneValue
    ensures !ExitedZero(run) <==> c.value == Bool(false)
  {
    if ExitedZero(run) then Returns(NoneValue) else Returns(Bool(false))
  }

  /** As written, a caller that tests the result for truth sees failure whatever happened. */
  lemma CypressInstallationAlwaysFalsy(run: ToolRun)
    ensures !Truthy(CheckForCypressInstallation(run).value)
    ensures CheckForCypressInstallation(Succeeded("")) != CheckForCypressInstallation(NonZeroExit)
    ensures Truthy(CheckForCypressInstallation(Succeeded("")).value)
            == Truthy(CheckForCypressInstallation(NonZeroExit).value)
  {
  }

  /** `check_for_cypress_installation` returning `True` on success, as its Playwright twin does. */
  function CheckForCypressInstallationFixed(run: ToolRun): (c: Completion)
    ensures c.Returns? && c.value.Bool?
    ensures Truthy(c.value) <==> ExitedZero(run)
    ensures c.value.b <==> CheckForCypressInstallation(run).value == NoneValue
  {
    match run
    case NonZeroExit => Returns(Bool(false))
    case LaunchFailed => Returns(Bool(false))
    case _ => Returns(Bool(true))
  }
}
