# A verified model of the agent-evaluation skill's scripts

The agent-evaluation skill helps a coding agent evaluate an LLM application with
MLflow. Apart from its Markdown documents, the repository holds three pieces of
executable logic, and this project models each as a Dafny module:

- **TracingUtils** (`tracing_utils.dfy`): the source-text validators. They find
  `mlflow.<lib>.autolog()` calls and `@mlflow.trace` decorators in a project's
  Python files, skipping virtual environments and installed packages. They
  decide whether autolog comes before the imports, check for the session-ID
  capture code, and record which files import mlflow. The finders and the
  import-order scan are methods with loops, each proved equal to a recursive
  specification function. Soundness, completeness and ordering are proved about
  those functions.
- **SetupMlflow** (`setup_mlflow.dfy`): the configuration resolution of the
  MLflow setup script. It covers the parser of the `databricks auth profiles`
  table (a loop, proved against a specification) and the two priority cascades
  that choose the tracking URI and the experiment ID (pure functions). A
  rendered-table round trip shows that the parser recovers exactly the profiles
  marked YES, in order.
- **Orchestrator** (`orchestrator.dfy`): the end-to-end test driver. A `Config`
  class holds the run-time fields that the phase methods update. The phases
  are prerequisites, setup (with the optional local server and its 30-attempt
  readiness poll), the headless smoke test, the evaluation run and the artifact
  verification. An `Environment` object stands for `os.environ`, which the
  phases write. The top level also covers the exit code chosen by the first
  failing phase and the cleanup decisions.

Three support modules complete the project. **Text** (`text.dfy`) holds the
Python string operations the scripts use: substring tests, `split`, `strip`,
`replace`, and ASCII `upper`/`lower`. **Env** (`env.dfy`) holds the environment
map and Python truthiness of optional strings. **Wrappers** (`wrappers.dfy`)
holds `Option`.

Everything the programs learn from outside is a parameter:

- file contents, with `None` when reading raised;
- whether commands exist;
- what `git`, `uv`, `curl`, `claude` and the Databricks CLI report;
- the health of the server at each poll attempt;
- the timestamp;
- the MLflow client's answers.

The smoke test rejects output that contains "Error" with that exact
capitalisation: the lower-case test beside it is implied, so output holding only
"ERROR" passes (`HeadlessRule`).

## Model

| member | source | states |
|---|---|---|
| Env.Getenv | agent-evaluation/scripts/setup_mlflow.py:89 | `os.getenv` yields a value exactly when the name is set, and then that value |
| Text.Split | agent-evaluation/scripts/utils/tracing_utils.py:64 | `str.split(sep)` yields at least one piece and no piece contains the separator |
| Text.JoinSplit | agent-evaluation/scripts/utils/tracing_utils.py:64 | joining the pieces of a split with the separator restores the text |
| Text.SplitJoin | agent-evaluation/scripts/setup_mlflow.py:61 | splitting a join of separator-free pieces gives the pieces back |
| Text.Strip | agent-evaluation/scripts/setup_mlflow.py:61 | `str.strip()` is a slice of the input that neither starts nor ends with whitespace |
| Text.StripTrimsSpace | agent-evaluation/scripts/setup_mlflow.py:61 | `str.strip()` removes only a whitespace prefix and a whitespace suffix and keeps everything between them |
| Text.Fields | agent-evaluation/scripts/setup_mlflow.py:68 | every field of `str.split()` is non-empty and whitespace-free |
| Text.FieldsOfPadded | agent-evaluation/scripts/setup_mlflow.py:68 | fields laid out with any leading and trailing whitespace and non-empty whitespace runs between them split back into exactly those fields |
| Text.LowerKeepsOccurrence | tests/test_agent_evaluation.py:494 | an occurrence of a pattern survives lower-casing as an occurrence of the lower-cased pattern |
| Text.MissingCharNotContained | agent-evaluation/scripts/utils/tracing_utils.py:101 | a text lacking a character of the pattern does not contain the pattern |
| Text.ReplaceAll | tests/test_agent_evaluation.py:408 | `str.replace` leaves a text without the target unchanged; a text that starts with the target and holds no other occurrence becomes the replacement followed by the rest |
| TracingUtils.IsExcludedPath | agent-evaluation/scripts/utils/tracing_utils.py:30 | a path is skipped when it contains "venv", ".venv" or "site-packages" |
| TracingUtils.ExcludedPathReduced | agent-evaluation/scripts/utils/tracing_utils.py:30 | a path is skipped exactly when it contains "venv" or "site-packages"; the ".venv" test adds nothing |
| TracingUtils.WordRunEnd | agent-evaluation/scripts/utils/tracing_utils.py:26 | the end of the maximal `\w` run at a position |
| TracingUtils.MatchAutologAt | agent-evaluation/scripts/utils/tracing_utils.py:26 | a match captures a `\w+` word and the text at the position is `mlflow.<word>.autolog()` |
| TracingUtils.MatchAutologAtIff | agent-evaluation/scripts/utils/tracing_utils.py:26 | the matcher accepts exactly the text `mlflow.<lib>.autolog()` with `lib` a `\w+` word |
| TracingUtils.NoAutologMatchInside | agent-evaluation/scripts/utils/tracing_utils.py:35 | no match starts strictly inside another, so the non-overlapping scan of `re.finditer` loses none |
| TracingUtils.AutologLibsAfterMatch | agent-evaluation/scripts/utils/tracing_utils.py:35-37 | resuming after a match's end yields the same libraries as scanning every position |
| TracingUtils.FindAutologCalls | agent-evaluation/scripts/utils/tracing_utils.py:15-42 | the loop over files and matches builds exactly the specified `(path, lib)` list, in file and textual order |
| TracingUtils.AutologCallsInText | agent-evaluation/scripts/utils/tracing_utils.py:35-38 | the loop over one file's matches appends exactly that file's `(path, lib)` pairs, in textual order |
| TracingUtils.AutologCallsSound | agent-evaluation/scripts/utils/tracing_utils.py:29-38 | every reported pair names a non-excluded, readable file whose text holds `mlflow.<lib>.autolog()` |
| TracingUtils.AutologCallsComplete | agent-evaluation/scripts/utils/tracing_utils.py:29-38 | every autolog match in a non-excluded, readable file is reported with its path |
| TracingUtils.FileAutologCallsComplete | agent-evaluation/scripts/utils/tracing_utils.py:33-38 | every autolog match in a scanned, readable file is among that file's pairs |
| TracingUtils.AutologCallsSkipExcluded | agent-evaluation/scripts/utils/tracing_utils.py:30-31 | a path containing "venv", ".venv" or "site-packages" contributes no pair |
| TracingUtils.SpaceRunEnd | agent-evaluation/scripts/utils/tracing_utils.py:71 | the end of the maximal `\s` run at a position |
| TracingUtils.MatchDefAt | agent-evaluation/scripts/utils/tracing_utils.py:71 | a `def\s+(\w+)\s*\(` match at a position captures a `\w+` name and starts with "def"; the full shape is stated by MatchDefAtIff |
| TracingUtils.MatchDefAtIff | agent-evaluation/scripts/utils/tracing_utils.py:71 | the matcher captures `name` exactly when the text reads "def", a non-empty whitespace run, the `\w+` word `name`, optional whitespace and "(" |
| TracingUtils.SearchDef | agent-evaluation/scripts/utils/tracing_utils.py:71 | the name found is a `\w+` word; which match it is, is stated by SearchDefLeftmost |
| TracingUtils.SearchDefLeftmost | agent-evaluation/scripts/utils/tracing_utils.py:71 | the search returns the match at the leftmost matching position, and nothing exactly when no position matches |
| TracingUtils.FirstDefLine | agent-evaluation/scripts/utils/tracing_utils.py:69-75 | the first line of the window that contains "def " and matches the pattern; none before it qualifies |
| TracingUtils.FindTraceDecorators | agent-evaluation/scripts/utils/tracing_utils.py:45-79 | the loop over files builds exactly the specified decorator list |
| TracingUtils.DecoratorsInLines | agent-evaluation/scripts/utils/tracing_utils.py:66-75 | the loop over one file's lines builds exactly that file's entries |
| TracingUtils.DecoratorOnLine | agent-evaluation/scripts/utils/tracing_utils.py:67-75 | one decorator line gives at most one entry, named by the first definition in its window |
| TracingUtils.FindDefInWindow | agent-evaluation/scripts/utils/tracing_utils.py:69-75 | the inner loop stops at the first qualifying definition line of `lines[i+1 : min(i+5, n)]` |
| TracingUtils.DecoratorsFromOrdered | agent-evaluation/scripts/utils/tracing_utils.py:66-75 | line numbers strictly increase, so there is at most one entry per decorator line |
| TracingUtils.DecoratorsFromSound | agent-evaluation/scripts/utils/tracing_utils.py:66-75 | every entry is for its file, its 1-based line holds "@mlflow.trace", and its name is that of the first definition line among the next four lines |
| TracingUtils.DecoratorAtSound | agent-evaluation/scripts/utils/tracing_utils.py:67-75 | a decorator line gives at most one entry, and that entry is sound |
| TracingUtils.DecoratorsFromComplete | agent-evaluation/scripts/utils/tracing_utils.py:66-75 | a decorator line with a definition line among the next four is always reported |
| TracingUtils.DecoratorAtReported | agent-evaluation/scripts/utils/tracing_utils.py:67-75 | a decorator line with a definition line among the next four has its own entry |
| TracingUtils.TraceDecoratorsSound | agent-evaluation/scripts/utils/tracing_utils.py:58-75 | every reported decorator comes from a non-excluded, readable file, sits on a decorator line of it and names the first definition within the next four lines |
| TracingUtils.TraceDecoratorsComplete | agent-evaluation/scripts/utils/tracing_utils.py:58-75 | a decorator line of a non-excluded, readable file with a definition line among the next four is reported with that file's path and its 1-based line |
| TracingUtils.DecoratorsSkipExcluded | agent-evaluation/scripts/utils/tracing_utils.py:59-60 | a path containing "venv", ".venv" or "site-packages" contributes no decorator |
| TracingUtils.CheckImportOrder | agent-evaluation/scripts/utils/tracing_utils.py:82-127 | the scan with its early break yields exactly the specified verdict; an unreadable file is a pass |
| TracingUtils.ImportScanNone | agent-evaluation/scripts/utils/tracing_utils.py:100-111 | the scan ends without an autolog line exactly when none is seen, and then without an import line |
| TracingUtils.ImportScanStopped | agent-evaluation/scripts/utils/tracing_utils.py:100-111 | a scan stopped by an import reports the last autolog line and the first qualifying line from it |
| TracingUtils.ImportScanExhausted | agent-evaluation/scripts/utils/tracing_utils.py:100-111 | a scan that runs out reports the last autolog line with no qualifying line from it on |
| TracingUtils.ImportOrderNotFoundIff | agent-evaluation/scripts/utils/tracing_utils.py:113-124 | "Autolog not found" exactly when no line contains "autolog()" |
| TracingUtils.ImportOrderLines | agent-evaluation/scripts/utils/tracing_utils.py:100-120 | a found import line is never above the autolog line, so "after imports" means both are on one line |
| TracingUtils.ImportOrderWitness | agent-evaluation/scripts/utils/tracing_utils.py:100-122 | the reported lines are the last autolog line before the stop and the first qualifying import from it, or no qualifying import exists |
| TracingUtils.ImportAboveAutologPasses | agent-evaluation/scripts/utils/tracing_utils.py:100-122 | imports only above the autolog line give "Autolog found", a pass |
| TracingUtils.ImportAboveAutologAccepted | agent-evaluation/scripts/utils/tracing_utils.py:100-122 | a concrete file with its import above autolog passes as written and fails the intended rule |
| TracingUtils.FirstAutologLine | agent-evaluation/scripts/utils/tracing_utils.py:101 | the first line containing "autolog()" |
| TracingUtils.FirstImportLine | agent-evaluation/scripts/utils/tracing_utils.py:104-106 | the first line that qualifies as an import |
| TracingUtils.ImportOrderIntended | agent-evaluation/scripts/utils/tracing_utils.py:82-92 | the documented rule: the first autolog line lies above the first qualifying import, or there is no qualifying import |
| TracingUtils.ImportOrderIntendedIff | agent-evaluation/scripts/utils/tracing_utils.py:82-92 | the intended rule holds exactly when some autolog line has no qualifying import at or above it |
| TracingUtils.CheckSessionIdCapture | agent-evaluation/scripts/utils/tracing_utils.py:132-154 | true exactly when the file is readable and all three session patterns occur in it |
| TracingUtils.SessionIdCaptureMonotone | agent-evaluation/scripts/utils/tracing_utils.py:146-152 | text that contains a passing file's text passes too |
| TracingUtils.VerifyMlflowImports | agent-evaluation/scripts/utils/tracing_utils.py:157-175 | the loop builds exactly the specified dictionary, later entries overwriting earlier ones |
| TracingUtils.ImportsMapKeys | agent-evaluation/scripts/utils/tracing_utils.py:166-175 | the keys are exactly the given paths |
| TracingUtils.ImportsMapValues | agent-evaluation/scripts/utils/tracing_utils.py:168-173 | each path maps to whether its last entry reads and contains "import mlflow", false when reading raised |
| SetupMlflow.RowProfile | agent-evaluation/scripts/setup_mlflow.py:65-73 | a row yields a profile only when it has at least three fields and the last reads YES; the profile is a whitespace-free field |
| SetupMlflow.RowProfiles | agent-evaluation/scripts/setup_mlflow.py:64-73 | one entry per row, each that row's contribution |
| SetupMlflow.Collect | agent-evaluation/scripts/setup_mlflow.py:63-73 | the list that `append` builds is no longer than the rows |
| SetupMlflow.DetectDatabricksProfiles | agent-evaluation/scripts/setup_mlflow.py:51-76 | the loop over the rows below the header builds exactly the specified profile list; a failed CLI gives none |
| SetupMlflow.DetectedProfiles | agent-evaluation/scripts/setup_mlflow.py:51-76 | the profiles of the rows below the header, in order, or none when the CLI failed; characterised by ValidProfilesSound, ValidProfilesComplete and ParseRenderedTable |
| SetupMlflow.CollectProfiles | agent-evaluation/scripts/setup_mlflow.py:63-74 | the loop over the rows builds exactly the profiles of the rows, in order |
| SetupMlflow.ParseRow | agent-evaluation/scripts/setup_mlflow.py:65-73 | one pass of the loop yields exactly the row's contribution |
| SetupMlflow.CollectSound | agent-evaluation/scripts/setup_mlflow.py:63-73 | every collected name comes from some row |
| SetupMlflow.CollectComplete | agent-evaluation/scripts/setup_mlflow.py:63-73 | every row's name is collected |
| SetupMlflow.CollectEmpty | agent-evaluation/scripts/setup_mlflow.py:63-73 | nothing is collected exactly when no row contributes |
| SetupMlflow.ValidProfilesSound | agent-evaluation/scripts/setup_mlflow.py:64-73 | every detected profile is the first field of some row marked YES |
| SetupMlflow.ValidProfilesComplete | agent-evaluation/scripts/setup_mlflow.py:64-73 | every row marked YES has its profile detected |
| SetupMlflow.NoProfilesIff | agent-evaluation/scripts/setup_mlflow.py:64-74 | no profile is detected exactly when no row marks one valid |
| SetupMlflow.RenderEntries | agent-evaluation/scripts/setup_mlflow.py:61 | one printed row per table entry |
| SetupMlflow.RenderEntryShape | agent-evaluation/scripts/setup_mlflow.py:61 | a printed entry, its columns aligned by whitespace runs, is one line that neither starts nor ends with whitespace |
| SetupMlflow.RenderEntryParse | agent-evaluation/scripts/setup_mlflow.py:65-73 | a printed entry parses back to its name exactly when it reads YES |
| SetupMlflow.RenderEntryFields | agent-evaluation/scripts/setup_mlflow.py:68 | `str.split()` of a printed entry gives its three columns whatever whitespace aligns them |
| SetupMlflow.JoinEnds | agent-evaluation/scripts/setup_mlflow.py:61 | a join of non-empty lines starts with the first line's first character and ends with the last line's last |
| SetupMlflow.RenderedRows | agent-evaluation/scripts/setup_mlflow.py:61-64 | stripping, splitting and dropping the header of a printed table gives back the printed rows |
| SetupMlflow.CollectRendered | agent-evaluation/scripts/setup_mlflow.py:63-73 | the rows of printed entries yield exactly the YES entries' names |
| SetupMlflow.CollectEntryProfiles | agent-evaluation/scripts/setup_mlflow.py:63-73 | collecting each entry's contribution gives exactly the names of the YES entries |
| SetupMlflow.ParseRenderedTable | agent-evaluation/scripts/setup_mlflow.py:51-76 | detecting profiles from a printed table with column-aligned rows gives exactly the names of the YES entries, in order |
| SetupMlflow.CliFailureYieldsNoProfiles | agent-evaluation/scripts/setup_mlflow.py:75-76 | a failed or missing CLI gives no profiles |
| SetupMlflow.AutoDetectTrackingUri | agent-evaluation/scripts/setup_mlflow.py:79-113 | a non-empty `MLFLOW_TRACKING_URI`, else the DEFAULT profile, else the first detected profile, else SQLite; characterised by TrackingUriPriority |
| SetupMlflow.ConfigureTrackingUri | agent-evaluation/scripts/setup_mlflow.py:116-136 | a non-empty argument, else auto-detection; characterised by TrackingUriProvenance and TrackingUriPriority |
| SetupMlflow.TrackingUriProvenance | agent-evaluation/scripts/setup_mlflow.py:79-136 | the chosen URI is non-empty: the argument, the environment's value, "databricks://" plus a detected profile, or "sqlite:///mlflow.db" |
| SetupMlflow.TrackingUriPriority | agent-evaluation/scripts/setup_mlflow.py:88-107 | a non-empty argument wins, then a non-empty environment value, then the DEFAULT profile, then `databricks://` plus the first detected profile |
| SetupMlflow.LocalFallbackIff | agent-evaluation/scripts/setup_mlflow.py:96-113 | without an environment value, the SQLite fallback is chosen exactly when no profile was detected |
| SetupMlflow.DetectedUriNamesValidProfile | agent-evaluation/scripts/setup_mlflow.py:95-107 | an auto-detected Databricks URI names a profile that some row of the table marks valid |
| SetupMlflow.IndexOf | agent-evaluation/scripts/setup_mlflow.py:98 | the position of a member of a list |
| SetupMlflow.FirstNamed | agent-evaluation/scripts/setup_mlflow.py:237-240 | the first listed experiment with exactly the given name, or none has it |
| SetupMlflow.LookUpByName | agent-evaluation/scripts/setup_mlflow.py:224-245 | the ID of the first listed experiment with exactly that name, or exit status 1 |
| SetupMlflow.ConfigureExperimentId | agent-evaluation/scripts/setup_mlflow.py:182-262 | the cascade argument, environment without a name, creation, name lookup, first listed; characterised by the four lemmas below |
| SetupMlflow.ExperimentIdProvenance | agent-evaluation/scripts/setup_mlflow.py:182-262 | a chosen ID comes from the argument, the environment, creation or the listing; the only exit status is 1 |
| SetupMlflow.ExperimentIdFromArgsOrEnv | agent-evaluation/scripts/setup_mlflow.py:205-214 | an explicit ID is returned unchanged; the environment's ID is used only without a name, and with a name it plays no part |
| SetupMlflow.NamedExperimentHonoured | agent-evaluation/scripts/setup_mlflow.py:216-245 | with a name, a created ID wins under `--create`; otherwise the first exact-name match; it exits exactly when neither exists |
| SetupMlflow.ExperimentAutoSelect | agent-evaluation/scripts/setup_mlflow.py:247-262 | with no ID, environment value or name, the first listed experiment is chosen; an empty list exits |
| Orchestrator.Poll | tests/test_agent_evaluation.py:291-318 | the poll makes at most 30 health checks, all 30 when it times out |
| Orchestrator.PollReadySound | tests/test_agent_evaluation.py:291-300 | a ready poll ends at a healthy attempt after attempts that were neither healthy nor dead |
| Orchestrator.PollReadyComplete | tests/test_agent_evaluation.py:291-312 | the first healthy attempt within 30, after quiet ones, makes the poll ready at that attempt |
| Orchestrator.PollTimesOutIff | tests/test_agent_evaluation.py:291-318 | the poll times out exactly when all 30 attempts find the server neither healthy nor dead |
| Orchestrator.MissingDeps | tests/test_agent_evaluation.py:204-212 | at most three missing commands are reported |
| Orchestrator.MissingDepsEmptyIff | tests/test_agent_evaluation.py:204-218 | nothing is missing exactly when claude, git and uv all exist; one entry per missing command |
| Orchestrator.ExperimentNameFor | tests/test_agent_evaluation.py:403-425 | the experiment name, absent when the Databricks user is unknown; characterised by ExperimentNameShape |
| Orchestrator.ExperimentNameShape | tests/test_agent_evaluation.py:403-425 | the name is "agent-eval-test-<ts>", under "/Users/<user>/" for an external Databricks URI; an unknown or empty user fails |
| Orchestrator.HeadlessPasses | tests/test_agent_evaluation.py:464-497 | the smoke-test verdict; characterised by HeadlessRule |
| Orchestrator.HeadlessRule | tests/test_agent_evaluation.py:464-497 | the smoke test passes exactly when the call completed with non-empty output free of "Error"; the exit status is not read |
| Orchestrator.FullPrompt | tests/test_agent_evaluation.py:513-517 | the prompt is the base prompt, followed by a space and the extra text when that is non-empty |
| Orchestrator.RunSucceeded | tests/test_agent_evaluation.py:548-563 | exit code 0 or a timeout is success, an exception or another exit code failure |
| Orchestrator.FailedCategories | tests/test_agent_evaluation.py:646-671 | the categories printed as FAIL are exactly those without a truthy "pass", in the order datasets, scorers, traces |
| Orchestrator.VerificationPasses | tests/test_agent_evaluation.py:621-679 | the verdict of `verify_results`; characterised by VerificationRule |
| Orchestrator.VerifyResults | tests/test_agent_evaluation.py:566-679 | the verdict is the specified rule; the FAIL list is the failed categories once the output parses |
| Orchestrator.VerificationRule | tests/test_agent_evaluation.py:621-679 | verification passes exactly when the output is non-empty, parses and all three categories pass; a missing entry fails |
| Orchestrator.ScorerLinesOf | tests/test_agent_evaluation.py:612 | every counted scorer line is an input line that is non-empty, not "---"-led and without "Name" |
| Orchestrator.ScorerLinesComplete | tests/test_agent_evaluation.py:612-614 | every such line is counted |
| Orchestrator.ScorerLinesCount | tests/test_agent_evaluation.py:612-613 | `len(lines)` is the number of positions holding a scorer line, duplicates included |
| Orchestrator.ScorerVerdict | tests/test_agent_evaluation.py:607-614 | the scorers category passes exactly when some line of the stripped listing is a scorer line |
| Orchestrator.ScriptReport | tests/test_agent_evaluation.py:583-618 | each category's `found` entry (as its truthiness) and `pass` flag, `pass` true exactly when the count is at least 1, and false when the lookup raised |
| Orchestrator.ScriptReportVerdict | tests/test_agent_evaluation.py:583-614 | on the script's own report, verification passes exactly when at least one dataset, scorer and trace was found |
| Orchestrator.SetupSucceeds | tests/test_agent_evaluation.py:331-461 | setup passes when clone, sync and add succeed, a locally started server becomes ready, and the experiment is named and created with an accepted ID |
| Orchestrator.SetupEnv | tests/test_agent_evaluation.py:452-458 | after setup the environment holds the tracking URI, the experiment ID and, when given, the OpenAI key, with their values; every other variable, and the key when not given, keeps its value |
| Orchestrator.ShutdownProbes | tests/test_agent_evaluation.py:173-179 | the shutdown wait makes at most 10 probes and stops right after the first that finds the server gone |
| Orchestrator.AwaitServerExit | tests/test_agent_evaluation.py:174-179 | the wait loop makes exactly the specified probes: it stops after the first that finds the server gone, or after 10 |
| Orchestrator.FirstFailure | tests/test_agent_evaluation.py:762-786 | the first failed phase, with all earlier phases passed |
| Orchestrator.ExitCode | tests/test_agent_evaluation.py:762-792 | the exit code of the first failed phase, 0 when none failed; characterised by ExitCodeMeaning |
| Orchestrator.ExitCodeMeaning | tests/test_agent_evaluation.py:762-792 | exit 0 exactly when all five phases pass; 1 for prerequisites, setup or smoke test; 2 for the evaluation run; 3 for verification |
| Orchestrator.Config.constructor | tests/test_agent_evaluation.py:740-748 | the options are stored and every run-time field starts empty |
| Orchestrator.Config.CheckPrerequisites | tests/test_agent_evaluation.py:200-245 | reports the missing commands; passes exactly when none is missing, the skill and its SKILL.md exist, and a URI is given or the port is free; a URI marks the server external |
| Orchestrator.Config.StartMlflowServer | tests/test_agent_evaluation.py:248-328 | records the PID; succeeds exactly when the poll is ready; only then is the local URI published |
| Orchestrator.Config.SetupPhase | tests/test_agent_evaluation.py:331-461 | records the work directory; succeeds exactly when clone, sync, add, server, naming and creation succeed and the ID is accepted; then sets the name, ID and environment. On failure the tracking URI stays exported once the project and server were ready, the name stays set once naming succeeded, and the stripped ID stays set once creation returned, even when it was rejected |
| Orchestrator.Config.CreateExperiment | tests/test_agent_evaluation.py:401-461 | succeeds exactly when a name is found, the experiment is created and its stripped ID is accepted; then exports the ID and, when given, the OpenAI key. The name is set whenever naming succeeds and the stripped ID whenever creation returns, success or not; otherwise both keep their old values |
| Orchestrator.Config.RunClaudeCode | tests/test_agent_evaluation.py:504-563 | records the log file; succeeds on exit code 0 or a timeout, fails on another exception |
| Orchestrator.Config.Cleanup | tests/test_agent_evaluation.py:144-197 | signals the server exactly when a non-zero PID is recorded and it is not external; probes at most 10 times; removes the work directory exactly when it exists and is not kept |
| Orchestrator.RunPhases | tests/test_agent_evaluation.py:762-792 | phases run in order, each only after the earlier ones passed, stopping at the first failure; each result is that phase's rule |
| Orchestrator.EvaluationPhases | tests/test_agent_evaluation.py:772-786 | the smoke test, the evaluation run and verification run in order, stopping at the first failure; each result is that phase's rule |
| Orchestrator.PassedSetupRun | tests/test_agent_evaluation.py:762-786 | two passed phases followed by a well-formed run of the last three form a well-formed run of all five |
| Orchestrator.RunTest | tests/test_agent_evaluation.py:682-792 | `--tracking-uri` defaults to the environment's value; the exit code is that of the first failing phase, and cleanup runs afterwards |

## Findings

| source | as written | input that shows it | evidently intended | confidence | as-written member | corrected member |
|---|---|---|---|---|---|---|
| agent-evaluation/scripts/utils/tracing_utils.py:100-124 | imports are only looked for from the autolog line on, so an import above autolog is never seen and the file passes | the two lines `from m import x` and `mlflow.autolog()` | fail when a qualifying import lies at or above the first autolog line, as the docstring ("autolog is called before library/module imports") promises | medium, not executed | TracingUtils.ImportAboveAutologAccepted | TracingUtils.ImportOrderIntendedIff |

`TracingUtils.CheckImportOrder` keeps the behaviour as written, because it models the shipped
function. `TracingUtils.ImportOrderIntended` states the documented rule, and
`TracingUtils.ImportOrderIntendedIff` proves what that rule means. No other part of the model uses
the import-order verdict.

## Left out

- Directory walking (`Path.rglob`), file reading and copying, `mkdtemp`, `rmtree`, `copytree` and the copy of the agent's session logs are not modelled. A file is its path plus its text, or `None` when reading raised, and the files come in walk order.
- Subprocesses are inputs, not calls. This covers `git clone`, `uv sync`, `uv add`, `curl`, `claude`, `databricks`, `mlflow server` and the verification script: each is represented only by its outcome.
- The MLflow client is an input. `list_experiments` is the list it returned (empty when it raised). `create_experiment` is the ID it returned, or `None`.
- Signals, sleeps, `atexit`, port probing, the clock and all printed or logged messages are left out. Cleanup reports its decisions rather than acting on them.
- `argparse` is not modelled. The driver's options are parameters of `RunTest`, and `--tracking-uri` falls back to the environment's value.
- The Databricks-package installation in setup is left out, because its outcome is ignored by the source.
- Exceptions the source does not catch are left out. Examples: `Popen` failing to spawn the server, `copytree` failing, a non-`CalledProcessError` from the creation command, `rmtree` in cleanup.
- Regular expressions are hand-written matchers for the fixed patterns. Python's `\w` is restricted to ASCII, and `upper`/`lower` are ASCII, except that `valid.upper() == "YES"` also accepts the long s (U+017F). Whitespace is Python's full `isspace` set.
- TracingUtils.CheckImportOrder: `import_pattern` is an abstract predicate on a line, with `None` when absent or empty. A pattern that fails to compile, which the source would catch and turn into a pass, is not modelled.
- TracingUtils.SearchDef: its own contract states only that the name is a `\w+` word. That it is the leftmost match, and that nothing means no match, is stated by `SearchDefLeftmost`, kept apart so the finder's proofs stay small.
- SetupMlflow.AutoDetectTrackingUri: takes the detected profiles (`DetectedProfiles` of the CLI output) as a parameter rather than running the CLI itself.
- SetupMlflow.ConfigureExperimentId: the `sys.exit(1)` paths become an `Exit(1)` result. The creation and listing calls are inputs.
- Orchestrator.VerifyResults: the parsed report is reduced to each category's members and the truthiness of their values. JSON that parses to something other than an object of objects, which would raise in the source, is not modelled.
- Orchestrator.ExperimentNameFor: the Databricks user lookup (`databricks current-user me` and its JSON) is an input per profile, with `None` when it raised or had no `userName`.
- Orchestrator.RunTest: its contract states each phase's rule and the exit code. For cleanup it states only the probe bound; the cleanup decisions themselves are stated by `Orchestrator.Config.Cleanup`.
- Orchestrator.Config.RunClaudeCode: the timeout length and the log file's contents are not modelled; the run is an input mapping the prompt to its outcome.
- The Markdown skill documents hold no executable logic and are not modelled.
