/**
 * The end-to-end test driver for the agent-evaluation skill: a configuration
 * object whose phase methods (prerequisites, setup with an optional local
 * MLflow server, a headless smoke test, the evaluation run and the artifact
 * verification) update its run-time fields and the process environment, the
 * exit code chosen by the first failing phase, and the cleanup decisions.
 *
 * Everything the driver learns from outside is an input: whether commands
 * exist, what `git`, `uv`, `curl`, `claude` and the Databricks CLI report,
 * the server's process ID and liveness, the timestamp, and the parsed output
 * of the verification script.
 */
module Orchestrator {
  import opened Wrappers
  import opened Text
  import opened Env

  const ExitSuccess: int := 0
  const ExitSetupFailed: int := 1
  const ExitExecutionFailed: int := 2
  const ExitVerificationFailed: int := 3

  const TrackingUriVar: string := "MLFLOW_TRACKING_URI"
  const ExperimentIdVar: string := "MLFLOW_EXPERIMENT_ID"
  const OpenAiKeyVar: string := "OPENAI_API_KEY"
  const DatabricksScheme: string := "databricks://"

  /** `os.environ`, which the phases write. */
  class Environment {
    var vars: Environ

    constructor (initial: Environ)
      ensures vars == initial
    {
      vars := initial;
    }
  }

  // ===========================================================================
  // The readiness poll of start_mlflow_server

  const MaxHealthAttempts: nat := 30

  /** How the poll ended, with the number of health checks made. */
  datatype PollResult = Ready(attempts: nat) | Died(attempts: nat) | TimedOut(attempts: nat)

  /**
   * The poll from attempt `a` on: attempt `a` checks health (`healthy(a)`) and,
   * when the check fails, whether the server process has exited (`exited(a)`).
   */
  function Poll(healthy: nat -> bool, exited: nat -> bool, a: nat): (r: PollResult)
    requires a <= MaxHealthAttempts
    ensures a <= r.attempts <= MaxHealthAttempts
    ensures r.TimedOut? ==> r.attempts == MaxHealthAttempts
    ensures !r.TimedOut? ==> a < r.attempts
    decreases MaxHealthAttempts - a
  {
    if a == MaxHealthAttempts then TimedOut(MaxHealthAttempts)
    else if healthy(a) then Ready(a + 1)
    else if exited(a) then Died(a + 1)
    else Poll(healthy, exited, a + 1)
  }

  /** No attempt before `n` (from `a` on) found the server healthy or dead. */
  predicate QuietBefore(healthy: nat -> bool, exited: nat -> bool, a: nat, n: nat) {
    forall b :: a <= b < n ==> !healthy(b) && !exited(b)
  }

  /** A ready poll reports an attempt that found the server healthy after quiet ones. */
  lemma {:induction false} PollReadySound(healthy: nat -> bool, exited: nat -> bool, a: nat)
    requires a <= MaxHealthAttempts && Poll(healthy, exited, a).Ready?
    ensures healthy(Poll(healthy, exited, a).attempts - 1)
    ensures QuietBefore(healthy, exited, a, Poll(healthy, exited, a).attempts - 1)
    decreases MaxHealthAttempts - a
  {
    if !healthy(a) {
      PollReadySound(healthy, exited, a + 1);
    }
  }

  /**
   * The poll reports ready exactly when some attempt within the thirty finds the
   * server healthy and every earlier attempt found it neither healthy nor dead.
   */
  lemma {:induction false} PollReadyComplete(healthy: nat -> bool, exited: nat -> bool, a: nat, n: nat)
    requires a <= n < MaxHealthAttempts && healthy(n) && QuietBefore(healthy, exited, a, n)
    ensures Poll(healthy, exited, a) == Ready(n + 1)
    decreases n - a
  {
    if a < n {
      assert !healthy(a) && !exited(a);
      assert QuietBefore(healthy, exited, a + 1, n);
      PollReadyComplete(healthy, exited, a + 1, n);
    }
  }

  /** A server that never answers is given all thirty attempts unless it dies first. */
  lemma {:induction false} PollTimesOutIff(healthy: nat -> bool, exited: nat -> bool, a: nat)
    requires a <= MaxHealthAttempts
    ensures Poll(healthy, exited, a).TimedOut? <==> QuietBefore(healthy, exited, a, MaxHealthAttempts)
    decreases MaxHealthAttempts - a
  {
    if a < MaxHealthAttempts {
      PollTimesOutIff(healthy, exited, a + 1);
    }
  }

  /** The tracking URI of the local server on `port`. */
  function LocalServerUri(port: int): string {
    "http://127.0.0.1:" + IntToString(port)
  }

  // ===========================================================================
  // Prerequisites

  /** The commands `check_prerequisites` reports missing, in its order. */
  function MissingDeps(hasClaude: bool, hasGit: bool, hasUv: bool): (r: seq<string>)
    ensures |r| <= 3
  {
    (if hasClaude then [] else ["claude (Claude Code CLI)"])
    + (if hasGit then [] else ["git"])
    + (if hasUv then [] else ["uv (Python package manager)"])
  }

  /** Nothing is reported missing exactly when all three commands exist. */
  lemma MissingDepsEmptyIff(hasClaude: bool, hasGit: bool, hasUv: bool)
    ensures MissingDeps(hasClaude, hasGit, hasUv) == [] <==> hasClaude && hasGit && hasUv
    ensures |MissingDeps(hasClaude, hasGit, hasUv)|
         == (if hasClaude then 0 else 1) + (if hasGit then 0 else 1) + (if hasUv then 0 else 1)
  {
  }

  /** `check_prerequisites` passes: no command missing, the skill present, and a tracking URI or a free port. */
  predicate PrerequisitesMet(hasClaude: bool, hasGit: bool, hasUv: bool, skillDirExists: bool,
                             skillFileExists: bool, portAvailable: bool, trackingUri: Option<string>)
  {
    && MissingDeps(hasClaude, hasGit, hasUv) == []
    && skillDirExists && skillFileExists
    && (Truthy(trackingUri) || portAvailable)
  }

  // ===========================================================================
  // Experiment naming and the created ID

  /** The experiment name setup uses, or `None` when the Databricks user cannot be found. */
  function ExperimentNameFor(useExternal: bool, trackingUri: Option<string>, timestamp: string,
                             currentUser: string -> Option<string>): Option<string>
    requires useExternal ==> trackingUri.Some?
  {
    var base := "agent-eval-test-" + timestamp;
    if useExternal && StartsWith(trackingUri.value, DatabricksScheme) then
      var user := currentUser(ReplaceAll(trackingUri.value, DatabricksScheme, ""));
      if Truthy(user) then Some("/Users/" + user.value + "/" + base) else None
    else Some(base)
  }

  /**
   * Names are "agent-eval-test-<ts>", placed under "/Users/<user>/" for an
   * external Databricks server, where an unknown or empty user fails.
   */
  lemma ExperimentNameShape(useExternal: bool, trackingUri: Option<string>, timestamp: string,
                            currentUser: string -> Option<string>)
    requires useExternal ==> trackingUri.Some?
    ensures var name := ExperimentNameFor(useExternal, trackingUri, timestamp, currentUser);
      var databricks := useExternal && StartsWith(trackingUri.value, "databricks://");
      && (!databricks ==> name == Some("agent-eval-test-" + timestamp))
      && (databricks ==>
            var profile := ReplaceAll(trackingUri.value, "databricks://", "");
            && (name.None? <==> !Truthy(currentUser(profile)))
            && (name.Some? ==> exists user :: user != "" && currentUser(profile) == Some(user)
                                              && name.value == "/Users/" + user + "/agent-eval-test-" + timestamp))
  {
    if useExternal && StartsWith(trackingUri.value, DatabricksScheme) {
      var user := currentUser(ReplaceAll(trackingUri.value, DatabricksScheme, ""));
      if Truthy(user) {
        var u := user.value;
        assert "/" + "agent-eval-test-" == "/agent-eval-test-";
        assert "/Users/" + u + "/" + ("agent-eval-test-" + timestamp) == "/Users/" + u + "/agent-eval-test-" + timestamp;
      }
    }
  }

  /** `setup_phase`'s check on the stripped output of the creation command. */
  predicate ExperimentIdAccepted(id: string) {
    id != "" && !Contains(id, "Error") && !Contains(id, "Traceback")
  }

  // ===========================================================================
  // The headless smoke test and the evaluation run

  /** What a `subprocess.run` call ended with. */
  datatype ProcessOutcome =
    | Completed(returnCode: int, stdout: string, stderr: string)
    | TimedOutRun
    | Raised

  /** `test_claude_headless`, given how the `claude -p "Say hello world"` call ended. */
  predicate HeadlessPasses(outcome: ProcessOutcome) {
    match outcome
    case Completed(_, stdout, stderr) =>
      var output := stdout + stderr;
      output != "" && !(Contains(Lower(output), "error") && Contains(output, "Error"))
    case TimedOutRun => false
    case Raised => false
  }

  /**
   * The smoke test passes exactly when the call completed with some output that
   * does not contain "Error" (case-sensitive); the exit status is not looked at.
   */
  lemma HeadlessRule(outcome: ProcessOutcome)
    ensures HeadlessPasses(outcome) <==>
      outcome.Completed? && outcome.stdout + outcome.stderr != ""
      && !Contains(outcome.stdout + outcome.stderr, "Error")
  {
    if outcome.Completed? {
      var output := outcome.stdout + outcome.stderr;
      if Contains(output, "Error") {
        LowerKeepsOccurrence(output, "Error");
        assert Lower("Error") == "error";
      }
    }
  }

  const BasePrompt: string := "Evaluate the output quality of my agent. Do not ask for input."

  /** The prompt of the evaluation run. */
  function FullPrompt(extra: string): (prompt: string)
    ensures StartsWith(prompt, BasePrompt)
    ensures extra == "" ==> prompt == BasePrompt
    ensures extra != "" ==> |prompt| == |BasePrompt| + 1 + |extra|
    ensures extra != "" ==> prompt[|BasePrompt|] == ' ' && prompt[|BasePrompt| + 1..] == extra
  {
    var p := if extra == "" then BasePrompt else BasePrompt + " " + extra;
    assert p[..|BasePrompt|] == BasePrompt;
    p
  }

  /** How the evaluation run ended: a timeout still counts as success, so verification runs. */
  predicate RunSucceeded(outcome: ProcessOutcome) {
    match outcome
    case Completed(returnCode, _, _) => returnCode == 0
    case TimedOutRun => true
    case Raised => false
  }

  // ===========================================================================
  // Verification

  /**
   * The parsed verification report: each category's members, each reduced to
   * the truthiness of its JSON value.
   */
  type Report = map<string, map<string, bool>>

  /** What the verification script run ended with: an exception, or its output and the parse of it. */
  datatype ScriptOutcome = ScriptRaised | ScriptOutput(stdout: string, parsed: Option<Report>)

  const Categories: seq<string> := ["datasets", "scorers", "traces"]

  /** `results.get(category, {}).get("pass")` is truthy. */
  predicate CategoryPasses(report: Report, category: string) {
    category in report && "pass" in report[category] && report[category]["pass"]
  }

  /** The position of a category in the order the script checks them. */
  function CategoryRank(category: string): nat {
    if category == "datasets" then 0 else if category == "scorers" then 1 else 2
  }

  /** The categories reported as FAIL, in the order they are printed. */
  function FailedCategories(report: Report): (failed: seq<string>)
    ensures forall c :: c in failed <==> c in Categories && !CategoryPasses(report, c)
    ensures forall i, j :: 0 <= i < j < |failed| ==> CategoryRank(failed[i]) < CategoryRank(failed[j])
  {
    (if CategoryPasses(report, "datasets") then [] else ["datasets"])
    + (if CategoryPasses(report, "scorers") then [] else ["scorers"])
    + (if CategoryPasses(report, "traces") then [] else ["traces"])
  }

  /** The verdict of `verify_results`. */
  predicate VerificationPasses(outcome: ScriptOutcome) {
    && outcome.ScriptOutput?
    && Strip(outcome.stdout) != ""
    && outcome.parsed.Some?
    && FailedCategories(outcome.parsed.value) == []
  }

  /** `verify_results`: the verdict and the categories printed as FAIL. */
  method VerifyResults(outcome: ScriptOutcome) returns (ok: bool, failed: seq<string>)
    ensures ok == VerificationPasses(outcome)
    ensures outcome.ScriptOutput? && Strip(outcome.stdout) != "" && outcome.parsed.Some? ==>
      failed == FailedCategories(outcome.parsed.value)
  {
    failed := [];
    if outcome.ScriptRaised? {
      return false, failed;
    }
    if Strip(outcome.stdout) == "" {
      return false, failed;
    }
    if outcome.parsed.None? {
      return false, failed;
    }
    var results := outcome.parsed.value;
    var allPass := true;
    if !CategoryPasses(results, "datasets") {
      failed := failed + ["datasets"];
      allPass := false;
    }
    if !CategoryPasses(results, "scorers") {
      failed := failed + ["scorers"];
      allPass := false;
    }
    if !CategoryPasses(results, "traces") {
      failed := failed + ["traces"];
      allPass := false;
    }
    return allPass, failed;
  }

  /**
   * Verification succeeds exactly when the output is non-empty and parses and all
   * three categories have a truthy "pass"; a missing category or flag fails.
   */
  lemma VerificationRule(outcome: ScriptOutcome)
    ensures VerificationPasses(outcome) <==>
      outcome.ScriptOutput? && Strip(outcome.stdout) != "" && outcome.parsed.Some?
      && forall k :: 0 <= k < |Categories| ==> CategoryPasses(outcome.parsed.value, Categories[k])
  {
    if outcome.ScriptOutput? && outcome.parsed.Some? {
      var report := outcome.parsed.value;
      var failed := FailedCategories(report);
      if failed != [] {
        assert failed[0] in failed;
      }
      if forall k :: 0 <= k < |Categories| ==> CategoryPasses(report, Categories[k]) {
        assert CategoryPasses(report, Categories[0]);
        assert CategoryPasses(report, Categories[1]);
        assert CategoryPasses(report, Categories[2]);
      }
    }
  }

  /** The lines the embedded script counts as scorers. */
  predicate IsScorerLine(line: string) {
    line != "" && !StartsWith(line, "---") && !Contains(line, "Name")
  }

  /** The lines the embedded script keeps: `[l for l in lines if ...]`. */
  function ScorerLinesOf(lines: seq<string>): (r: seq<string>)
    ensures |r| <= |lines|
    ensures forall k :: 0 <= k < |r| ==> IsScorerLine(r[k]) && r[k] in lines
  {
    if lines == [] then []
    else
      var init := ScorerLinesOf(lines[..|lines| - 1]);
      var last := lines[|lines| - 1];
      (if IsScorerLine(last) then init + [last] else init)
  }

  /** Every line that is a scorer line is counted. */
  lemma {:induction false} ScorerLinesComplete(lines: seq<string>, k: nat)
    requires k < |lines| && IsScorerLine(lines[k])
    ensures lines[k] in ScorerLinesOf(lines)
  {
    var init := lines[..|lines| - 1];
    if k < |init| {
      assert init[k] == lines[k];
      ScorerLinesComplete(init, k);
    }
  }

  /** The positions of the scorer lines. */
  function ScorerPositions(lines: seq<string>): set<nat> {
    set k: nat | k < |lines| && IsScorerLine(lines[k])
  }

  /** The kept list has one entry per scorer line: `len(lines)` counts the positions, duplicates included. */
  lemma {:induction false} ScorerLinesCount(lines: seq<string>)
    ensures |ScorerLinesOf(lines)| == |ScorerPositions(lines)|
  {
    if lines != [] {
      var init := lines[..|lines| - 1];
      var last := |lines| - 1;
      ScorerLinesCount(init);
      var before := ScorerPositions(init);
      ScorerPositionsSnoc(lines);
      assert last !in before;
      if IsScorerLine(lines[last]) {
        assert ScorerPositions(lines) == before + {last};
        assert |before + {last}| == |before| + 1;
      } else {
        assert ScorerPositions(lines) == before;
      }
    }
  }

  /** Appending a line adds its position exactly when it is a scorer line. */
  lemma ScorerPositionsSnoc(lines: seq<string>)
    requires lines != []
    ensures var last := |lines| - 1;
      ScorerPositions(lines)
        == ScorerPositions(lines[..last]) + (if IsScorerLine(lines[last]) then {last} else {})
  {
    var last := |lines| - 1;
    var init := lines[..last];
    forall k: nat
      ensures k in ScorerPositions(lines)
          <==> k in ScorerPositions(init) + (if IsScorerLine(lines[last]) then {last} else {})
    {
      if k < last {
        assert init[k] == lines[k];
      }
    }
  }

  /** The number of scorers the embedded script counts in the output of `mlflow scorers list`. */
  function ScorerCount(output: string): nat {
    |ScorerLinesOf(Split(Strip(output), '\n'))|
  }

  /**
   * Fed the scorer count, the script's report passes the scorers category exactly
   * when some line of the stripped listing is a scorer line.
   */
  lemma ScorerVerdict(datasets: Option<nat>, output: string, traces: Option<nat>)
    ensures var lines := Split(Strip(output), '\n');
      (CategoryPasses(ScriptReport(datasets, Some(ScorerCount(output)), traces), "scorers")
       <==> exists k :: 0 <= k < |lines| && IsScorerLine(lines[k]))
  {
    var lines := Split(Strip(output), '\n');
    var kept := ScorerLinesOf(lines);
    if exists k :: 0 <= k < |lines| && IsScorerLine(lines[k]) {
      var k :| 0 <= k < |lines| && IsScorerLine(lines[k]);
      ScorerLinesComplete(lines, k);
    }
    if kept != [] {
      assert kept[0] in lines;
      var k :| 0 <= k < |lines| && lines[k] == kept[0];
      assert IsScorerLine(lines[k]);
    }
  }

  /**
   * The entry the embedded script writes for a count, or for a lookup that raised
   * (the count stays 0 and the flag false).
   */
  function CategoryEntry(found: Option<nat>): map<string, bool> {
    match found
    case Some(n) => map["found" := n != 0, "pass" := n >= 1]
    case None => map["found" := false, "pass" := false]
  }

  /**
   * The report the embedded verification script prints, given the dataset, scorer
   * and trace counts (`None` when that lookup raised).
   */
  function ScriptReport(datasets: Option<nat>, scorers: Option<nat>, traces: Option<nat>): Report {
    map["datasets" := CategoryEntry(datasets),
        "scorers" := CategoryEntry(scorers),
        "traces" := CategoryEntry(traces)["with_assessments" := false]]
  }

  /**
   * On the script's own report, verification passes exactly when at least one
   * dataset, one scorer and one trace were found.
   */
  lemma ScriptReportVerdict(datasets: Option<nat>, scorers: Option<nat>, traces: Option<nat>)
    ensures FailedCategories(ScriptReport(datasets, scorers, traces)) == []
        <==> && datasets.Some? && datasets.value >= 1
             && scorers.Some? && scorers.value >= 1
             && traces.Some? && traces.value >= 1
  {
    var report := ScriptReport(datasets, scorers, traces);
    assert CategoryPasses(report, "datasets") <==> datasets.Some? && datasets.value >= 1;
    assert CategoryPasses(report, "scorers") <==> scorers.Some? && scorers.value >= 1;
    assert CategoryPasses(report, "traces") <==> traces.Some? && traces.value >= 1;
  }

  // ===========================================================================
  // Outcomes of the outside world for one run

  /** What setup learns from outside. */
  datatype SetupWorld = SetupWorld(
    workDir: string,                              // what `tempfile.mkdtemp` created
    cloneOk: bool, syncOk: bool, addOk: bool,     // git clone, uv sync, uv add mlflow
    serverPid: int,                               // the local server's process ID
    healthy: nat -> bool, exited: nat -> bool,    // per poll attempt
    timestamp: string,
    currentUser: string -> Option<string>,        // per profile; None when the lookup raised
    createExperiment: string -> Option<string>)   // stdout per name; None when the command failed

  /** Whether setup succeeds. */
  predicate SetupSucceeds(useExternal: bool, trackingUri: Option<string>, w: SetupWorld)
    requires useExternal ==> trackingUri.Some?
  {
    && w.cloneOk && w.syncOk && w.addOk
    && (useExternal || Poll(w.healthy, w.exited, 0).Ready?)
    && ExperimentCreated(useExternal, trackingUri, w)
  }

  /** The experiment steps of `setup_phase` succeed: a name, a created experiment and an accepted ID. */
  predicate ExperimentCreated(useExternal: bool, trackingUri: Option<string>, w: SetupWorld)
    requires useExternal ==> trackingUri.Some?
  {
    var name := ExperimentNameFor(useExternal, trackingUri, w.timestamp, w.currentUser);
    && name.Some?
    && w.createExperiment(name.value).Some?
    && ExperimentIdAccepted(Strip(w.createExperiment(name.value).value))
  }

  /** The stripped output of the creation command, once the experiment was named and the command returned. */
  function CreatedId(useExternal: bool, trackingUri: Option<string>, w: SetupWorld): Option<string>
    requires useExternal ==> trackingUri.Some?
  {
    var name := ExperimentNameFor(useExternal, trackingUri, w.timestamp, w.currentUser);
    if name.Some? && w.createExperiment(name.value).Some? then Some(Strip(w.createExperiment(name.value).value))
    else None
  }

  /** Setup gets as far as naming and creating the experiment: the project is ready and so is the server. */
  predicate ReachesExperiment(useExternal: bool, w: SetupWorld) {
    w.cloneOk && w.syncOk && w.addOk && (useExternal || Poll(w.healthy, w.exited, 0).Ready?)
  }

  /** The environment after the experiment ID, and the OpenAI key when given, are exported. */
  function ExportExperiment(env: Environ, experimentId: string, openAiKey: Option<string>): Environ {
    var e := env[ExperimentIdVar := experimentId];
    if Truthy(openAiKey) then e[OpenAiKeyVar := openAiKey.value] else e
  }

  /** The environment after a successful setup. */
  function SetupEnv(env: Environ, useExternal: bool, trackingUri: Option<string>, port: int,
                    experimentId: string, openAiKey: Option<string>): (r: Environ)
    requires useExternal ==> trackingUri.Some?
    ensures r.Keys == env.Keys + {TrackingUriVar, ExperimentIdVar} + (if Truthy(openAiKey) then {OpenAiKeyVar} else {})
    ensures r[ExperimentIdVar] == experimentId
    ensures r[TrackingUriVar] == if useExternal then trackingUri.value else LocalServerUri(port)
    ensures Truthy(openAiKey) ==> r[OpenAiKeyVar] == openAiKey.value
    ensures !Truthy(openAiKey) && OpenAiKeyVar in env ==> r[OpenAiKeyVar] == env[OpenAiKeyVar]
    ensures forall name :: name in env && name !in {TrackingUriVar, ExperimentIdVar, OpenAiKeyVar} ==> r[name] == env[name]
  {
    ExportExperiment(env[TrackingUriVar := if useExternal then trackingUri.value else LocalServerUri(port)],
                     experimentId, openAiKey)
  }

  /** Everything one run of the driver learns from outside. */
  datatype World = World(
    hasClaude: bool, hasGit: bool, hasUv: bool,
    skillDirExists: bool, skillFileExists: bool, portAvailable: bool,
    setup: SetupWorld,
    headless: ProcessOutcome,
    evaluation: string -> ProcessOutcome,         // per prompt
    verification: ScriptOutcome,
    termDelivered: bool, alive: nat -> bool, workDirExists: bool)

  // ===========================================================================
  // Cleanup

  const MaxShutdownProbes: nat := 10

  /** The liveness probes the shutdown wait makes from probe `i` on: it stops after the first dead probe. */
  function ShutdownProbes(alive: nat -> bool, i: nat): (n: nat)
    requires i <= MaxShutdownProbes
    ensures i <= n <= MaxShutdownProbes
    ensures n == MaxShutdownProbes || (i < n && !alive(n - 1))
    ensures forall k :: i <= k < n - 1 ==> alive(k)
    decreases MaxShutdownProbes - i
  {
    if i == MaxShutdownProbes then MaxShutdownProbes
    else if alive(i) then ShutdownProbes(alive, i + 1)
    else i + 1
  }

  /** The wait in `cleanup` after SIGTERM: probe the server until a probe finds it gone, at most ten times. */
  method AwaitServerExit(alive: nat -> bool) returns (probes: nat)
    ensures probes == ShutdownProbes(alive, 0)
  {
    probes := 0;
    while probes < MaxShutdownProbes
      invariant probes <= MaxShutdownProbes
      invariant ShutdownProbes(alive, probes) == ShutdownProbes(alive, 0)
    {
      if !alive(probes) {
        probes := probes + 1;
        break;
      }
      probes := probes + 1;
    }
  }

  /** What cleanup did. */
  datatype CleanupReport = CleanupReport(signalled: bool, probes: nat, removedWorkDir: bool)

  // ===========================================================================
  // Exit codes

  /** The exit code of a failure in phase `phase` (0: prerequisites ... 4: verification). */
  function FailureCode(phase: nat): int {
    if phase <= 2 then ExitSetupFailed
    else if phase == 3 then ExitExecutionFailed
    else ExitVerificationFailed
  }

  /** The index of the first failed phase. */
  function FirstFailure(ran: seq<bool>): (r: Option<nat>)
    ensures r.Some? ==> r.value < |ran| && !ran[r.value] && forall k :: 0 <= k < r.value ==> ran[k]
    ensures r.None? ==> forall k :: 0 <= k < |ran| ==> ran[k]
  {
    if ran == [] then None
    else if !ran[0] then Some(0)
    else
      match FirstFailure(ran[1..])
      case Some(i) => Some(i + 1)
      case None => None
  }

  /** The exit code `main` returns for the phase results `ran`. */
  function ExitCode(ran: seq<bool>): int {
    match FirstFailure(ran)
    case Some(i) => FailureCode(i)
    case None => ExitSuccess
  }

  /** The phases ran in order, each only after all earlier ones passed, and stopped at the first failure. */
  predicate WellFormedRun(ran: seq<bool>) {
    && 1 <= |ran| <= 5
    && (forall k :: 0 <= k < |ran| - 1 ==> ran[k])
    && (|ran| < 5 ==> !ran[|ran| - 1])
  }

  /**
   * The exit code is 0 exactly when all five phases passed, 1 for a failure in
   * prerequisites, setup or the smoke test, 2 for a failed evaluation run and 3
   * for a failed verification.
   */
  lemma ExitCodeMeaning(ran: seq<bool>)
    requires WellFormedRun(ran)
    ensures ExitCode(ran) == ExitSuccess <==> |ran| == 5 && ran[4]
    ensures ExitCode(ran) == ExitSetupFailed <==> |ran| <= 3
    ensures ExitCode(ran) == ExitExecutionFailed <==> |ran| == 4
    ensures ExitCode(ran) == ExitVerificationFailed <==> |ran| == 5 && !ran[4]
  {
    var f := FirstFailure(ran);
    if |ran| < 5 || !ran[4] {
      assert !ran[|ran| - 1];
      assert f.Some? && f.value == |ran| - 1;
    }
  }

  // ===========================================================================
  // The configuration and its phases

  class Config {
    const skillDir: string
    const timeoutSeconds: int
    const mlflowPort: int
    const keepWorkdir: bool
    const extraPrompt: string
    const trackingUri: Option<string>
    const openAiKey: Option<string>

    var workDir: Option<string>
    var experimentName: Option<string>
    var experimentId: Option<string>
    var logFile: Option<string>
    var mlflowServerPid: Option<int>
    var useExternalServer: bool

    constructor (skillDir: string, timeoutSeconds: int, mlflowPort: int, keepWorkdir: bool,
                 extraPrompt: string, trackingUri: Option<string>, openAiKey: Option<string>)
      ensures this.skillDir == skillDir && this.timeoutSeconds == timeoutSeconds
      ensures this.mlflowPort == mlflowPort && this.keepWorkdir == keepWorkdir
      ensures this.extraPrompt == extraPrompt && this.trackingUri == trackingUri && this.openAiKey == openAiKey
      ensures workDir.None? && experimentName.None? && experimentId.None?
      ensures logFile.None? && mlflowServerPid.None? && !useExternalServer
    {
      this.skillDir := skillDir;
      this.timeoutSeconds := timeoutSeconds;
      this.mlflowPort := mlflowPort;
      this.keepWorkdir := keepWorkdir;
      this.extraPrompt := extraPrompt;
      this.trackingUri := trackingUri;
      this.openAiKey := openAiKey;
      workDir := None;
      experimentName := None;
      experimentId := None;
      logFile := None;
      mlflowServerPid := None;
      useExternalServer := false;
    }

    /** The external-server flag is only ever set together with a tracking URI. */
    predicate Valid()
      reads this
    {
      useExternalServer ==> Truthy(trackingUri)
    }

    /** The server is ours to stop: a non-zero process ID is recorded and the server is not external. */
    predicate OwnsServer()
      reads this
    {
      mlflowServerPid.Some? && mlflowServerPid.value != 0 && !useExternalServer
    }

    /** `check_prerequisites`, with the missing commands it reports. */
    method CheckPrerequisites(hasClaude: bool, hasGit: bool, hasUv: bool,
                              skillDirExists: bool, skillFileExists: bool, portAvailable: bool)
      returns (ok: bool, missingDeps: seq<string>)
      requires Valid()
      modifies this
      ensures Valid()
      ensures missingDeps == MissingDeps(hasClaude, hasGit, hasUv)
      ensures ok == PrerequisitesMet(hasClaude, hasGit, hasUv, skillDirExists, skillFileExists, portAvailable, trackingUri)
      ensures useExternalServer
          == (old(useExternalServer) || (missingDeps == [] && skillDirExists && skillFileExists && Truthy(trackingUri)))
      ensures workDir == old(workDir) && experimentName == old(experimentName) && experimentId == old(experimentId)
      ensures logFile == old(logFile) && mlflowServerPid == old(mlflowServerPid)
    {
      missingDeps := [];
      if !hasClaude {
        missingDeps := missingDeps + ["claude (Claude Code CLI)"];
      }
      if !hasGit {
        missingDeps := missingDeps + ["git"];
      }
      if !hasUv {
        missingDeps := missingDeps + ["uv (Python package manager)"];
      }
      if missingDeps != [] {
        return false, missingDeps;
      }
      if !skillDirExists || !skillFileExists {
        return false, missingDeps;
      }
      if Truthy(trackingUri) {
        useExternalServer := true;
      } else if !portAvailable {
        return false, missingDeps;
      }
      return true, missingDeps;
    }

    /** `start_mlflow_server`: spawn the server as `pid`, poll its health, and publish its URI. */
    method StartMlflowServer(env: Environment, pid: int, healthy: nat -> bool, exited: nat -> bool)
      returns (ok: bool, attempts: nat)
      modifies this, env
      ensures mlflowServerPid == Some(pid)
      ensures ok == Poll(healthy, exited, 0).Ready? && attempts == Poll(healthy, exited, 0).attempts
      ensures env.vars == if ok then old(env.vars)[TrackingUriVar := LocalServerUri(mlflowPort)] else old(env.vars)
      ensures workDir == old(workDir) && experimentName == old(experimentName) && experimentId == old(experimentId)
      ensures logFile == old(logFile) && useExternalServer == old(useExternalServer)
    {
      mlflowServerPid := Some(pid);
      var attempt: nat := 0;
      ok := false;
      attempts := MaxHealthAttempts;
      while attempt < MaxHealthAttempts
        invariant attempt <= MaxHealthAttempts
        invariant Poll(healthy, exited, attempt) == Poll(healthy, exited, 0)
      {
        if healthy(attempt) {
          ok := true;
          attempts := attempt + 1;
          break;
        }
        if exited(attempt) {
          return false, attempt + 1;
        }
        attempt := attempt + 1;
      }
      if !ok {
        return false, MaxHealthAttempts;
      }
      env.vars := env.vars[TrackingUriVar := LocalServerUri(mlflowPort)];
    }

    /** `setup_phase`. */
    method SetupPhase(env: Environment, w: SetupWorld) returns (ok: bool)
      requires Valid()
      modifies this, env
      ensures Valid()
      ensures workDir == Some(w.workDir)
      ensures useExternalServer == old(useExternalServer) && logFile == old(logFile)
      ensures ok == SetupSucceeds(useExternalServer, trackingUri, w)
      ensures mlflowServerPid ==
        if !useExternalServer && w.cloneOk && w.syncOk && w.addOk then Some(w.serverPid) else old(mlflowServerPid)
      ensures ok ==> experimentName == ExperimentNameFor(useExternalServer, trackingUri, w.timestamp, w.currentUser)
      ensures ok ==> experimentId == Some(Strip(w.createExperiment(experimentName.value).value))
      ensures ok ==> env.vars == SetupEnv(old(env.vars), useExternalServer, trackingUri, mlflowPort,
                                          experimentId.value, openAiKey)
      ensures var name := ExperimentNameFor(useExternalServer, trackingUri, w.timestamp, w.currentUser);
        experimentName == if ReachesExperiment(useExternalServer, w) && name.Some? then name else old(experimentName)
      ensures var id := CreatedId(useExternalServer, trackingUri, w);
        experimentId == if ReachesExperiment(useExternalServer, w) && id.Some? then id else old(experimentId)
      ensures !ok ==> (env.vars ==
        if ReachesExperiment(useExternalServer, w)
        then old(env.vars)[TrackingUriVar := if useExternalServer then trackingUri.value else LocalServerUri(mlflowPort)]
        else old(env.vars))
    {
      workDir := Some(w.workDir);
      if !w.cloneOk || !w.syncOk || !w.addOk {
        return false;
      }
      if useExternalServer {
        env.vars := env.vars[TrackingUriVar := trackingUri.value];
      } else {
        var started, attempts := StartMlflowServer(env, w.serverPid, w.healthy, w.exited);
        if !started {
          return false;
        }
      }
      ok := CreateExperiment(env, w);
    }

    /** The experiment steps of `setup_phase`: name the experiment, create it, check its ID and export it. */
    method CreateExperiment(env: Environment, w: SetupWorld) returns (ok: bool)
      requires Valid()
      modifies this, env
      ensures workDir == old(workDir) && mlflowServerPid == old(mlflowServerPid)
      ensures useExternalServer == old(useExternalServer) && logFile == old(logFile)
      ensures ok == ExperimentCreated(useExternalServer, trackingUri, w)
      ensures ok ==> experimentName == ExperimentNameFor(useExternalServer, trackingUri, w.timestamp, w.currentUser)
      ensures ok ==> experimentId == Some(Strip(w.createExperiment(experimentName.value).value))
      ensures var name := ExperimentNameFor(useExternalServer, trackingUri, w.timestamp, w.currentUser);
        experimentName == if name.Some? then name else old(experimentName)
      ensures var id := CreatedId(useExternalServer, trackingUri, w);
        experimentId == if id.Some? then id else old(experimentId)
      ensures env.vars == if ok then ExportExperiment(old(env.vars), experimentId.value, openAiKey) else old(env.vars)
    {
      var name := ExperimentNameFor(useExternalServer, trackingUri, w.timestamp, w.currentUser);
      if name.None? {
        return false;
      }
      experimentName := name;
      var created := w.createExperiment(name.value);
      if created.None? {
        return false;
      }
      var id := Strip(created.value);
      experimentId := Some(id);
      if !ExperimentIdAccepted(id) {
        return false;
      }
      env.vars := env.vars[ExperimentIdVar := id];
      if Truthy(openAiKey) {
        env.vars := env.vars[OpenAiKeyVar := openAiKey.value];
      }
      return true;
    }

    /** `run_claude_code`: run the evaluation prompt and record the log file. */
    method RunClaudeCode(evaluation: string -> ProcessOutcome) returns (ok: bool)
      requires workDir.Some?
      modifies this
      ensures workDir == old(workDir) && experimentName == old(experimentName) && experimentId == old(experimentId)
      ensures logFile == Some(workDir.value + "/claude_output.log")
      ensures ok == RunSucceeded(evaluation(FullPrompt(extraPrompt)))
      ensures mlflowServerPid == old(mlflowServerPid) && useExternalServer == old(useExternalServer)
    {
      logFile := Some(workDir.value + "/claude_output.log");
      var fullPrompt := BasePrompt;
      if extraPrompt != "" {
        fullPrompt := BasePrompt + " " + extraPrompt;
      }
      var outcome := evaluation(fullPrompt);
      match outcome {
        case TimedOutRun => return true;
        case Raised => return false;
        case Completed(exitCode, _, _) => return exitCode == 0;
      }
    }

    /** `cleanup`: stop the server if it is ours, then remove the work directory unless it is kept. */
    method Cleanup(termDelivered: bool, alive: nat -> bool, workDirExists: bool) returns (report: CleanupReport)
      ensures report.signalled <==> OwnsServer()
      ensures report.probes == if OwnsServer() && termDelivered then ShutdownProbes(alive, 0) else 0
      ensures report.probes <= MaxShutdownProbes
      ensures report.removedWorkDir <==> workDir.Some? && workDirExists && !keepWorkdir
    {
      var signalled := false;
      var probes: nat := 0;
      if mlflowServerPid.Some? && mlflowServerPid.value != 0 && !useExternalServer {
        signalled := true;
        if termDelivered {
          probes := AwaitServerExit(alive);
        }
      }
      var removed := false;
      if workDir.Some? && workDirExists {
        if !keepWorkdir {
          removed := true;
        }
      }
      report := CleanupReport(signalled, probes, removed);
    }
  }

  // ===========================================================================
  // main

  /**
   * The phases of `main`, each run only when all earlier ones passed; the
   * results of those that ran.
   */
  method RunPhases(config: Config, env: Environment, w: World) returns (ran: seq<bool>)
    requires config.Valid()
    modifies config, env
    ensures WellFormedRun(ran)
    ensures ran[0] == PrerequisitesMet(w.hasClaude, w.hasGit, w.hasUv, w.skillDirExists, w.skillFileExists,
                                       w.portAvailable, config.trackingUri)
    ensures |ran| >= 2 ==> ran[1] == SetupSucceeds(Truthy(config.trackingUri), config.trackingUri, w.setup)
    ensures |ran| >= 3 ==> ran[2] == HeadlessPasses(w.headless)
    ensures |ran| >= 4 ==> ran[3] == RunSucceeded(w.evaluation(FullPrompt(config.extraPrompt)))
    ensures |ran| == 5 ==> ran[4] == VerificationPasses(w.verification)
  {
    var ok, missingDeps := config.CheckPrerequisites(w.hasClaude, w.hasGit, w.hasUv,
                                                     w.skillDirExists, w.skillFileExists, w.portAvailable);
    if !ok {
      return [false];
    }
    assert config.useExternalServer == Truthy(config.trackingUri);
    ok := config.SetupPhase(env, w.setup);
    if !ok {
      return [true, false];
    }
    var later := EvaluationPhases(config, w);
    ran := [true, true] + later;
    PassedSetupRun(later);
  }

  /** Two passed phases followed by a well-formed run of the last three form a well-formed run of all five. */
  lemma PassedSetupRun(later: seq<bool>)
    requires 1 <= |later| <= 3 && (forall k :: 0 <= k < |later| - 1 ==> later[k]) && (|later| < 3 ==> !later[|later| - 1])
    ensures WellFormedRun([true, true] + later)
    ensures forall k :: 0 <= k < |later| ==> ([true, true] + later)[k + 2] == later[k]
  {
  }

  /** The phases of `main` after setup: the smoke test, the evaluation run and the verification. */
  method EvaluationPhases(config: Config, w: World) returns (ran: seq<bool>)
    requires config.workDir.Some?
    modifies config
    ensures 1 <= |ran| <= 3 && (forall k :: 0 <= k < |ran| - 1 ==> ran[k]) && (|ran| < 3 ==> !ran[|ran| - 1])
    ensures ran[0] == HeadlessPasses(w.headless)
    ensures |ran| >= 2 ==> ran[1] == RunSucceeded(w.evaluation(FullPrompt(config.extraPrompt)))
    ensures |ran| == 3 ==> ran[2] == VerificationPasses(w.verification)
  {
    var ok := HeadlessPasses(w.headless);
    if !ok {
      return [false];
    }
    ok := config.RunClaudeCode(w.evaluation);
    if !ok {
      return [true, false];
    }
    var failed;
    ok, failed := VerifyResults(w.verification);
    return [true, true, ok];
  }

  /**
   * `main` followed by the cleanup it registers: build the configuration, run
   * the phases until one fails, and return the exit code with the phase results.
   * `trackingUriArg` is `--tracking-uri`; its default is the environment's value.
   */
  method RunTest(env: Environment, skillDir: string, timeoutSeconds: int, mlflowPort: int,
                 keepWorkdir: bool, extraPrompt: string, trackingUriArg: Option<string>, w: World)
    returns (code: int, ran: seq<bool>, cleanup: CleanupReport)
    modifies env
    ensures WellFormedRun(ran)
    ensures code == ExitCode(ran)
    ensures var trackingUri := if trackingUriArg.Some? then trackingUriArg else Getenv(old(env.vars), TrackingUriVar);
      && ran[0] == PrerequisitesMet(w.hasClaude, w.hasGit, w.hasUv, w.skillDirExists, w.skillFileExists,
                                    w.portAvailable, trackingUri)
      && (|ran| >= 2 ==> ran[1] == SetupSucceeds(Truthy(trackingUri), trackingUri, w.setup))
    ensures |ran| >= 3 ==> ran[2] == HeadlessPasses(w.headless)
    ensures |ran| >= 4 ==> ran[3] == RunSucceeded(w.evaluation(FullPrompt(extraPrompt)))
    ensures |ran| == 5 ==> ran[4] == VerificationPasses(w.verification)
    ensures cleanup.probes <= MaxShutdownProbes
  {
    var trackingUri := if trackingUriArg.Some? then trackingUriArg else Getenv(env.vars, TrackingUriVar);
    var config := new Config(skillDir, timeoutSeconds, mlflowPort, keepWorkdir, extraPrompt,
                             trackingUri, Getenv(env.vars, OpenAiKeyVar));
    ran := RunPhases(config, env, w);
    code := ExitCode(ran);
    cleanup := config.Cleanup(w.termDelivered, w.alive, w.workDirExists);
  }
}
