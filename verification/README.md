# FHE challenge agent loop — a Dafny model

This project models the core of RD-Agent's loop for FHE (fully homomorphic
encryption) challenges. Each round of the loop does the following:

- it asks a language model for an algorithm plan (the *research* step);
- it asks it again for the C++ body of `eval()`, and patches that body into
  the challenge's `yourSolution.cpp` template (the *coding* step);
- it builds and runs the patched solution in Docker, and reads the accuracy
  from the verifier's output or from the validator's `result.json` (the
  *running* step);
- it turns the run results into a pass/fail decision (the *feedback* step);
- it appends the attempt to the trace (the *record* step).

Two log readers are modelled as well: the run summary, and the data side of
the trace viewer.

The modules follow the source files:

| module | file | form |
|---|---|---|
| `Experiment` | `experiment.py` | datatypes, plus the `FHEExperiment` and `Trace` classes the steps update in place |
| `Patcher` | `developer.py`, `_inject_eval_body` and `_strip_eval_wrapper` | the `void X::eval() {` matcher and the brace-depth scan |
| `Developer` | `developer.py` | `develop` and its helpers |
| `Runner` | `runner.py` | black box and white box runs, the accuracy parsers, the `result.json` count |
| `Evaluator` | `evaluator.py` | `generate_feedback` |
| `Proposal` | `proposal.py` | the hypothesis, `gen`, the history and template summaries |
| `Scenario` | `scen.py` | type detection, variable-name extraction, the scenario description |
| `Loop` | `loop.py` and `conf.py` | settings, command-line overrides, the `feedback` and `record` steps |
| `Summary` | `fhe_summary.py` | `_summarize_one_run` |
| `TraceView` | `fhe_trace.py` | `load_fhe_data`, `get_loop_ids`, `get_latest_code`, `_extract_eval_body` |

`Text` holds the Python string primitives the code relies on. `Wrappers`
holds `Option`, `Result` and `Outcome`.

Python semantics are modelled as follows:

- An exception that crosses a call is a `Failure`/`Fail` value.
- `None` is `Option.None`.
- A float is an exact `real`.
- Regular expressions are hand-written leftmost matchers. Each has lemmas
  saying the match found is the leftmost one (`FindShapeLeftmost`,
  `FindMarkerLeftmost`, `FirstOccurrence`, `Leftmost`).
- `\s` is Python's `str.isspace` set. `\w` is ASCII letters, digits and `_`.
- `re.IGNORECASE` also folds the Kelvin sign to `k`, as Python does.
- Where the code loops while changing variables, the model has a method with
  a loop. Each such method is proved equal to a function on values, and the
  properties are proved about that function. Examples are `ScanToClose`
  against `Close`, `RunTestcases` against `Testcases`, `ParseAccuracyWhiteBox`
  against `SlotAccuracy`, `SummarizeOneRun` against `Fold`, and `LoadFheData`
  against `LoadFold`.

Stripping a `void X::eval() {` wrapper is idempotent only when the
stripped result holds no further marker. A nested `void X::eval() {` inside
the body is stripped again on a second pass. `Patcher.StripWrapperTwice`
states exactly when a second pass changes nothing.

## Model

| member | source | states |
|---|---|---|
| Experiment.FHETask.TaskInformation | rdagent/scenarios/fhe_challenge/experiment.py:21-22 | the task information is the fixed header followed by exactly the algorithm plan |
| Experiment.TaskInformationInjective | rdagent/scenarios/fhe_challenge/experiment.py:21-22 | two tasks have the same task information exactly when they have the same plan |
| Experiment.FHEExperiment.constructor | rdagent/scenarios/fhe_challenge/experiment.py:49-56 | a new experiment keeps its tasks and hypothesis, has an empty workspace, has neither built nor run, and has no output, accuracy or error |
| Experiment.FHEExperiment.InjectFile | rdagent/scenarios/fhe_challenge/developer.py:77 | writing a workspace file sets that one entry and changes no run result, task or hypothesis |
| Patcher.MatchPiece | rdagent/scenarios/fhe_challenge/developer.py:163 | one regex piece (literal, `\s*`/`\s+`, `\w+`) consumes only characters it admits; a literal consumes itself; a run is greedy and stops at the first character it does not admit |
| Patcher.MatchPieces | rdagent/scenarios/fhe_challenge/developer.py:163 | a sequence of pieces matched in order consumes only characters some piece admits |
| Patcher.MatchShapeAt | rdagent/scenarios/fhe_challenge/developer.py:163 | a match of the eval pattern at a position ends just after a `{` |
| Patcher.MatchShapeNoBrace | rdagent/scenarios/fhe_challenge/developer.py:163 | a match contains no `{` before its final one |
| Patcher.FindShapeFrom | rdagent/scenarios/fhe_challenge/developer.py:164 | `re.search` returns a position at or after the start where the pattern matches, with the end that match reaches |
| Patcher.FindShapeEnds | rdagent/scenarios/fhe_challenge/developer.py:164-168 | the match found is non-empty, lies in the text, and its last character is `{` |
| Patcher.FindShapeLeftmost | rdagent/scenarios/fhe_challenge/developer.py:164-165 | no position before the match found matches; when none is found, no position matches |
| Patcher.FindShapeFromFirst | rdagent/scenarios/fhe_challenge/developer.py:164 | the search returns the first matching position, so it is determined by where the first match is |
| Patcher.FindShapeKeepsPrefix | rdagent/scenarios/fhe_challenge/developer.py:164-179 | the first match is unchanged when everything after its `{` is replaced |
| Patcher.MatchMarkerAt | rdagent/scenarios/fhe_challenge/developer.py:163 | a match of `void\s+\w+::eval\s*\(\s*\)\s*\{` ends at its first `{` |
| Patcher.FindMarker | rdagent/scenarios/fhe_challenge/developer.py:164-166 | `match.start()` < `match.end()` and both lie in the template |
| Patcher.FindMarkerBrace | rdagent/scenarios/fhe_challenge/developer.py:168 | `match.end()` is just past the opening `{` of `eval()` |
| Patcher.FindMarkerLeftmost | rdagent/scenarios/fhe_challenge/developer.py:164-166 | the marker found is the leftmost match; `None` means no position matches |
| Patcher.FindMarkerKeepsPrefix | rdagent/scenarios/fhe_challenge/developer.py:179 | the patched file still has its marker at the same place |
| Patcher.NetAppend | rdagent/scenarios/fhe_challenge/developer.py:169-176 | the brace balance of a concatenation is the sum of the balances |
| Patcher.DepthStep | rdagent/scenarios/fhe_challenge/developer.py:171-176 | one scan step raises the depth on `{`, lowers it on `}` and keeps it otherwise |
| Patcher.CloseFrom | rdagent/scenarios/fhe_challenge/developer.py:168-176 | the scan stops at the first position where the depth is no longer positive, or at the end of the text |
| Patcher.Close | rdagent/scenarios/fhe_challenge/developer.py:168-176 | the scan's final `pos` lies between the start and the end of the text |
| Patcher.CloseCharacterized | rdagent/scenarios/fhe_challenge/developer.py:178 | when the braces close, `pos - 1` is the closing `}` of `eval()`; otherwise `pos` is the end and the depth never reached 0 |
| Patcher.ScanToClose | rdagent/scenarios/fhe_challenge/developer.py:168-176 | the `while` loop over the template computes exactly the scan's stopping position |
| Patcher.Injected | rdagent/scenarios/fhe_challenge/developer.py:163-179 | injection fails (`ValueError`) exactly when the template has no eval marker |
| Patcher.InjectedIsSplice | rdagent/scenarios/fhe_challenge/developer.py:168-179 | with a marker, the result is the template up to `{`, then the body between newlines, then the template from `pos - 1` |
| Patcher.InjectedShape | rdagent/scenarios/fhe_challenge/developer.py:168-179 | the patched file keeps the template through `{`, holds `"\n" + body + "\n"`, keeps the template's tail from `pos - 1`, and when the braces close that tail opens with `}` |
| Patcher.InjectEvalBody | rdagent/scenarios/fhe_challenge/developer.py:157-179 | the method with the depth loop returns exactly the injection result, the error case included |
| Patcher.StrippedWrapper | rdagent/scenarios/fhe_challenge/developer.py:142-155 | code without a wrapper is returned unchanged; with one, the result is stripped of surrounding whitespace |
| Patcher.StripWrapperBalanced | rdagent/scenarios/fhe_challenge/developer.py:144-154 | when the wrapper's braces close, the result is the stripped text before the matching `}` |
| Patcher.StripWrapperUnbalanced | rdagent/scenarios/fhe_challenge/developer.py:148-154 | when they do not close, the last character is dropped (`body[:pos - 1]` with `pos` at the end), or nothing remains if the body is empty |
| Patcher.StripEvalWrapper | rdagent/scenarios/fhe_challenge/developer.py:137-155 | the method with the depth loop returns exactly the stripped wrapper |
| Patcher.StripWrapperShrinks | rdagent/scenarios/fhe_challenge/developer.py:142-154 | stripping a wrapper always makes the code strictly shorter |
| Patcher.StripWrapperTwice | rdagent/scenarios/fhe_challenge/developer.py:142-155 | stripping again changes nothing exactly when the first result contains no eval marker |
| Developer.FencedBlock | rdagent/scenarios/fhe_challenge/developer.py:115-117 | the captured group of a fenced block is returned stripped |
| Developer.ExtractCppCode | rdagent/scenarios/fhe_challenge/developer.py:113-125 | the extracted code is always free of surrounding whitespace |
| Developer.ExtractCppCodeCases | rdagent/scenarios/fhe_challenge/developer.py:115-125 | a ` ```cpp ` block wins; otherwise a generic block is used only when it holds an FHE keyword; otherwise the result is empty |
| Developer.CppBlockAt | rdagent/scenarios/fhe_challenge/developer.py:115-117 | the first ` ```cpp ` block, closed by the next fence, yields its stripped contents |
| Developer.FenceRoundTrip | rdagent/scenarios/fhe_challenge/developer.py:113-117 | code wrapped in a ` ```cpp ` block inside a response is extracted back as the stripped code |
| Developer.FeedbackContext | rdagent/scenarios/fhe_challenge/developer.py:88-94 | an error message wins, shown under its header as exactly its first 800 characters (all of it when shorter); otherwise the output's last 500 characters (all of it when shorter) under the output header; otherwise the first-attempt text |
| Developer.FeedbackContextPrefersError | rdagent/scenarios/fhe_challenge/developer.py:91-92 | with an error message, the context depends on nothing else and is non-empty |
| Developer.VariableLines | rdagent/scenarios/fhe_challenge/developer.py:97-110 | one bulleted line per known role (`cc`, `input`, `output`, `pk`) that the names map holds |
| Developer.VariableLinesListing | rdagent/scenarios/fhe_challenge/developer.py:97-110 | the lines are exactly the known roles in the order cc, input, output, pk: the line of a role comes after those of the known roles before it and reads `- <name>  → <role text>` with that role's own text |
| Developer.RoleLineAt | rdagent/scenarios/fhe_challenge/developer.py:99-110 | after the first n role checks, a known role among them has its `- <name>  → <role text>` line after the lines of the known roles checked before it |
| Developer.FormatVariableNames | rdagent/scenarios/fhe_challenge/developer.py:97-111 | the fallback line appears exactly when none of the four roles is known |
| Developer.PatchedSolution | rdagent/scenarios/fhe_challenge/developer.py:62-74 | every failure of extracting, stripping and injecting is a `CoderError` |
| Developer.PatchedSolutionErrors | rdagent/scenarios/fhe_challenge/developer.py:63-74 | no code block gives the "no code block" error; no marker gives "Code injection failed: " plus the `ValueError` text; otherwise patching succeeds |
| Developer.PatchedSolutionShape | rdagent/scenarios/fhe_challenge/developer.py:68-72 | the patched file keeps the template through the marker's `{` and then holds the stripped-wrapper body between newlines |
| Developer.Coded | rdagent/scenarios/fhe_challenge/developer.py:33-87 | success always writes `yourSolution.cpp` and at most `config.json` besides; every failure is a `CoderError` |
| Developer.CodedInOrder | rdagent/scenarios/fhe_challenge/developer.py:34-83 | the checks run in order: no sub-tasks, then no template, then the patch error; on success the file is the patched solution, and `config.json` is written exactly when a white-box config was extracted |
| Developer.Patch | rdagent/scenarios/fhe_challenge/developer.py:62-74 | the method returns exactly the patched solution or its error |
| Developer.Develop | rdagent/scenarios/fhe_challenge/developer.py:33-87 | on failure the workspace is untouched; on success the new files overlay the workspace; the run results, tasks and hypothesis never change |
| Runner.DockerRunContract | rdagent/scenarios/fhe_challenge/runner.py:279-295 | the exit code is 0 exactly when the command completed with code 0; a timeout reports "timed out after Ns" |
| Runner.NumberAfter | rdagent/scenarios/fhe_challenge/runner.py:232 | the token captured after `\s*` is a non-empty run of digits and dots |
| Runner.AccuracyAt | rdagent/scenarios/fhe_challenge/runner.py:232 | an `Accuracy:` match captures a non-empty digit-and-dot token |
| Runner.AnyCaseAccuracyAt | rdagent/scenarios/fhe_challenge/runner.py:270 | an `[Aa]ccuracy:` match captures a non-empty digit-and-dot token |
| Runner.Float | rdagent/scenarios/fhe_challenge/runner.py:234 | `float` of a token is non-negative, or raises `ValueError` for that token |
| Runner.FirstAccuracy | rdagent/scenarios/fhe_challenge/runner.py:232 | the search returns a position where the accuracy pattern matches, with its token |
| Runner.ParseAccuracyBlackBox | rdagent/scenarios/fhe_challenge/runner.py:230-240 | a parsed accuracy is never negative |
| Runner.ParseAccuracyFromOutput | rdagent/scenarios/fhe_challenge/runner.py:268-273 | a parsed accuracy is never negative |
| Runner.NoAccuracyWithoutA | rdagent/scenarios/fhe_challenge/runner.py:232 | output without an `A` has no accuracy line |
| Runner.NumberAfterLabel | rdagent/scenarios/fhe_challenge/runner.py:232-234 | after a label, the decimal digits of n are captured and read back as n |
| Runner.AccuracyLineParsed | rdagent/scenarios/fhe_challenge/runner.py:232-272 | `Accuracy: n` is read as n by both parsers |
| Runner.LowerCaseLabel | rdagent/scenarios/fhe_challenge/runner.py:232-272 | `accuracy: n` is missed by the black-box parser but read by the white-box fallback |
| Runner.SlotsLineParsed | rdagent/scenarios/fhe_challenge/runner.py:235-240 | `Slots passed: x/y` gives x/y, and `None` when y is 0 |
| Runner.SlotsOnly | rdagent/scenarios/fhe_challenge/runner.py:232-240 | without an accuracy line, the first slots line decides the result |
| Runner.TrailingDotRaises | rdagent/scenarios/fhe_challenge/runner.py:232-234 | `Accuracy: 0.95.` captures `0.95.`, on which `float` raises `ValueError` |
| Runner.PairsTally | rdagent/scenarios/fhe_challenge/runner.py:258-261 | `zip` counts one slot per pair, and no more correct slots than slots |
| Runner.RunTally | rdagent/scenarios/fhe_challenge/runner.py:253-261 | a run's count has no more correct slots than slots |
| Runner.RunsTally | rdagent/scenarios/fhe_challenge/runner.py:253-261 | the count over runs has no more correct slots than slots |
| Runner.TestcaseTally | rdagent/scenarios/fhe_challenge/runner.py:251-261 | a testcase's count has no more correct slots than slots |
| Runner.TestcasesTally | rdagent/scenarios/fhe_challenge/runner.py:251-261 | the count over testcases has no more correct slots than slots |
| Runner.ResultTally | rdagent/scenarios/fhe_challenge/runner.py:247-261 | the count over `result.json` has no more correct slots than slots |
| Runner.SlotAccuracyBounds | rdagent/scenarios/fhe_challenge/runner.py:262-263 | the white-box accuracy is a fraction between 0 and 1 |
| Runner.RunCountsZip | rdagent/scenarios/fhe_challenge/runner.py:254-259 | a run counts as many slots as the shorter of `result` and `expected_output` |
| Runner.ThresholdCascade | rdagent/scenarios/fhe_challenge/runner.py:252-257 | the run's threshold wins, then the testcase's, then 0.01 |
| Runner.LookupDefault | rdagent/scenarios/fhe_challenge/runner.py:252-257 | `dict.get` returns the value when the key is present, whatever the default, and the default otherwise |
| Runner.CountRun | rdagent/scenarios/fhe_challenge/runner.py:253-261 | the inner `zip` loop computes exactly the run's count, or the exception |
| Runner.CountTestcase | rdagent/scenarios/fhe_challenge/runner.py:251-261 | the loop over runs computes exactly the testcase's count |
| Runner.ParseAccuracyWhiteBox | rdagent/scenarios/fhe_challenge/runner.py:242-266 | the loop over testcases computes exactly the slot accuracy, with `None` for no slots or any exception |
| Runner.OverlayOrder | rdagent/scenarios/fhe_challenge/runner.py:67-179 | generated files overwrite in both modes; black box keeps files already in the workspace before templates; white box lets templates overwrite them |
| Runner.Observe | rdagent/scenarios/fhe_challenge/runner.py:122-129 | each testcase is observed through one Docker run, in order |
| Runner.TestcasesNext | rdagent/scenarios/fhe_challenge/runner.py:129-138 | one testcase adds its banner, then records a failure, a raised parse error, or adds its accuracy |
| Runner.TestcasesAllSuccess | rdagent/scenarios/fhe_challenge/runner.py:120-140 | `all_success` holds exactly when every testcase exited 0 |
| Runner.TestcasesTotal | rdagent/scenarios/fhe_challenge/runner.py:118-138 | the total is the sum of the parsed accuracies of the successful testcases |
| Runner.TestcasesErrors | rdagent/scenarios/fhe_challenge/runner.py:134 | the error message gains one note per failing testcase, in order |
| Runner.BannersAt | rdagent/scenarios/fhe_challenge/runner.py:130 | there is one `=== name ===` banner per testcase, in order |
| Runner.TestcasesOutputs | rdagent/scenarios/fhe_challenge/runner.py:130 | the collected outputs are exactly the banners |
| Runner.RaisedSticks | rdagent/scenarios/fhe_challenge/runner.py:136 | once parsing raises, no later testcase changes anything |
| Runner.BlackBoxBuildFailure | rdagent/scenarios/fhe_challenge/runner.py:97-102 | a failed build records the failure and the build output, runs no testcase and cleans nothing up |
| Runner.BlackBoxNoTestcases | rdagent/scenarios/fhe_challenge/runner.py:111-116 | without testcases the build succeeded, the run did not, the message names the test directory, and the image is removed |
| Runner.BlackBoxRunResult | rdagent/scenarios/fhe_challenge/runner.py:118-147 | `run_success` means every testcase exited 0; the accuracy is the mean over all testcases; the errors gain one note per failure; the image is removed |
| Runner.BlackBoxOutputs | rdagent/scenarios/fhe_challenge/runner.py:130-141 | the output is the banners joined by blank lines |
| Runner.RunTestcases | rdagent/scenarios/fhe_challenge/runner.py:122-138 | the testcase loop computes exactly the gathered results |
| Runner.RecordGathered | rdagent/scenarios/fhe_challenge/runner.py:134-147 | after the testcase loop the gathered error notes are kept; a parser exception leaves the image in place and the rest of the state untouched; otherwise the run flag, the joined outputs and the mean accuracy over the testcases are recorded and the image is removed |
| Runner.ScoreTestcases | rdagent/scenarios/fhe_challenge/runner.py:118-147 | the experiment's new run state is the finished testcase results; the workspace, tasks and hypothesis do not change |
| Runner.BlackBoxFinish | rdagent/scenarios/fhe_challenge/runner.py:118-147 | after a good build with testcases, the black-box result is the finished testcase results |
| Runner.RunBlackBox | rdagent/scenarios/fhe_challenge/runner.py:55-147 | the experiment's new run state, the raised error and the cleanup are those of the black-box function; nothing else changes |
| Runner.WhiteBoxClassification | rdagent/scenarios/fhe_challenge/runner.py:196-214 | the output is stored; on a non-zero exit the run failed and it is a build failure exactly when a build marker appears; on exit 0 both succeeded |
| Runner.WhiteBoxSlotAccuracy | rdagent/scenarios/fhe_challenge/runner.py:216-222 | with a `result.json`, the accuracy lies in [0, 1], and an undecodable file gives `None` |
| Runner.BuildMarkersIgnoreCase | rdagent/scenarios/fhe_challenge/runner.py:201-202 | the build markers are found regardless of case |
| Runner.RecordFailedRun | rdagent/scenarios/fhe_challenge/runner.py:197-211 | after a non-zero exit the output is recorded and the run counts as failed; the build counts as failed with the compile message exactly when a build marker shows in the lower-cased output, otherwise as a runtime error; the workspace, tasks and hypothesis do not change |
| Runner.RecordPassedRun | rdagent/scenarios/fhe_challenge/runner.py:213-222 | after exit 0 build and run both succeed and the accuracy is the `result.json` slot accuracy, or, without that file, the accuracy parsed from the output, whose exception is passed on with the flags and output already recorded and the accuracy unchanged |
| Runner.RunWhiteBox | rdagent/scenarios/fhe_challenge/runner.py:153-224 | the experiment's new run state is that of the white-box function; nothing else changes |
| Runner.Run | rdagent/scenarios/fhe_challenge/runner.py:40-49 | `black_box` runs the black-box path and every other type the white-box path |
| Evaluator.GenerateFeedback | rdagent/scenarios/fhe_challenge/evaluator.py:27-74 | the decision is positive exactly when the build and run succeeded and the accuracy is known and at least the threshold |
| Evaluator.FeedbackHeader | rdagent/scenarios/fhe_challenge/evaluator.py:29-66 | the reason opens with the build-failure, runtime-error, unparsed or accuracy header, according to the first check that fails |
| Evaluator.StatusVerdict | rdagent/scenarios/fhe_challenge/evaluator.py:58-64 | the status line says PASSED exactly when the accuracy reaches the threshold |
| Evaluator.FeedbackSotaNote | rdagent/scenarios/fhe_challenge/evaluator.py:61-71 | a known best accuracy is appended last; otherwise the reason ends with the last 2000 output characters |
| Evaluator.TakeLastTwice | rdagent/scenarios/fhe_challenge/evaluator.py:33-65 | a shorter tail of a tail is the shorter tail of the whole |
| Evaluator.FeedbackSeesOnlyExcerpts | rdagent/scenarios/fhe_challenge/evaluator.py:29-66 | feedback depends only on the flags, the accuracy, the first 2000 error characters and the last 2000 output characters |
| Evaluator.FailureReasonBounded | rdagent/scenarios/fhe_challenge/evaluator.py:29-56 | a failure's reason has bounded length, however long the output and error are |
| Proposal.NewHypothesis | rdagent/scenarios/fhe_challenge/proposal.py:21-30 | the hypothesis keeps the algorithm and reasoning, and its concise reason is their first 200 characters |
| Proposal.HypothesisText | rdagent/scenarios/fhe_challenge/proposal.py:32-33 | the text is the plan label followed by exactly the algorithm |
| Proposal.Gen | rdagent/scenarios/fhe_challenge/proposal.py:66-71 | a fresh experiment with one task whose plan is the stripped response, and a hypothesis with the first 500 characters as reasoning |
| Proposal.GeneratedHypothesis | rdagent/scenarios/fhe_challenge/proposal.py:66-71 | the plan is stripped, the task's description is the hypothesis' algorithm, and the concise reason is the plan's first 200 characters |
| Proposal.HeadersAppend | rdagent/scenarios/fhe_challenge/proposal.py:78-88 | the attempt headers of joined lines are the headers of each part |
| Proposal.NotHeaderLine | rdagent/scenarios/fhe_challenge/proposal.py:84-88 | a line that opens with a label other than a newline is no attempt header |
| Proposal.NoHeaders | rdagent/scenarios/fhe_challenge/proposal.py:84-88 | lines none of which is a header hold no headers |
| Proposal.AttemptHeaders | rdagent/scenarios/fhe_challenge/proposal.py:81-88 | one attempt contributes exactly its own numbered header |
| Proposal.NumberedAt | rdagent/scenarios/fhe_challenge/proposal.py:81 | the numbered headers run consecutively from the first number |
| Proposal.HistoryHeaders | rdagent/scenarios/fhe_challenge/proposal.py:79-81 | the headers of the history are the consecutive numbers of the attempts shown |
| Proposal.HistoryShowsLastAttempts | rdagent/scenarios/fhe_challenge/proposal.py:79-81 | at most 3 attempts are shown, numbered consecutively and ending with the number of the last attempt |
| Proposal.HistoryOpening | rdagent/scenarios/fhe_challenge/proposal.py:75-81 | the empty trace gives "No previous attempts."; otherwise the history opens with an attempt header |
| Proposal.HistoryStartsWithHeader | rdagent/scenarios/fhe_challenge/proposal.py:80-81 | a non-empty window of attempts opens with a header line |
| Proposal.AttemptLinesReport | rdagent/scenarios/fhe_challenge/proposal.py:81-88 | an attempt shows SUCCESS exactly when its feedback passed; it has 4 lines with a hypothesis and 3 without; it shows a 300-character plan preview and a feedback excerpt of at most 600 characters |
| Proposal.AppendAttempt | rdagent/scenarios/fhe_challenge/proposal.py:80-88 | one loop iteration appends exactly that attempt's lines |
| Proposal.BuildHistory | rdagent/scenarios/fhe_challenge/proposal.py:73-90 | the loop over the last attempts builds exactly the history of the trace |
| Proposal.TemplateLinesAt | rdagent/scenarios/fhe_challenge/proposal.py:106-108 | one line per template file, in order |
| Proposal.TemplateLineLength | rdagent/scenarios/fhe_challenge/proposal.py:108 | each line gives the file's length in decimal digits that read back as that length |
| Proposal.TemplateSummaryFallback | rdagent/scenarios/fhe_challenge/proposal.py:109 | the "no template files" fallback appears exactly when there are no templates |
| Proposal.TemplateLineOpens | rdagent/scenarios/fhe_challenge/proposal.py:108 | every template line is a `-` bullet |
| Proposal.FormatTemplateSummary | rdagent/scenarios/fhe_challenge/proposal.py:105-109 | the loop builds exactly the template summary |
| Scenario.DetectType | rdagent/scenarios/fhe_challenge/scen.py:38-42 | the type is always `black_box` or `white_box` |
| Scenario.GapIsGreedy | rdagent/scenarios/fhe_challenge/scen.py:40 | the `\s*` in the pattern takes all the whitespace after the label |
| Scenario.DetectTypeMarker | rdagent/scenarios/fhe_challenge/scen.py:40-42 | `black_box` exactly when `Challenge type:` followed by whitespace and `Black Box` occurs somewhere, ignoring case |
| Scenario.DetectTypeIgnoresCase | rdagent/scenarios/fhe_challenge/scen.py:40 | lower-casing the challenge text does not change its detected type |
| Scenario.MarkerAtLower | rdagent/scenarios/fhe_challenge/scen.py:40 | the marker matches at a position in the text exactly when it matches there in its lower-cased form |
| Scenario.DeclAt | rdagent/scenarios/fhe_challenge/scen.py:62-70 | a declaration match yields a non-empty name and ends inside the text |
| Scenario.DeclAtName | rdagent/scenarios/fhe_challenge/scen.py:62-70 | the type occurs at the position, and the name is a maximal run of word characters after whitespace |
| Scenario.SearchName | rdagent/scenarios/fhe_challenge/scen.py:62-68 | a captured name is never empty |
| Scenario.FindAllFirst | rdagent/scenarios/fhe_challenge/scen.py:70-72 | `findall` finds something exactly when `search` does, and its first name is the one `search` finds |
| Scenario.FindAllNames | rdagent/scenarios/fhe_challenge/scen.py:70 | every name `findall` returns is a non-empty run of word characters |
| Scenario.Names | rdagent/scenarios/fhe_challenge/scen.py:60-76 | the keys are among `cc`, `pk`, `input`, `output`, and `output` only comes with `input` |
| Scenario.ExtractVariableNames | rdagent/scenarios/fhe_challenge/scen.py:54-76 | the keys are among the four roles, and `output` only comes with `input` |
| Scenario.NamesFound | rdagent/scenarios/fhe_challenge/scen.py:63-74 | each role is present exactly when its match exists; input is the first ciphertext and output the last, when there are two or more |
| Scenario.VariableNamesFirstLast | rdagent/scenarios/fhe_challenge/scen.py:59-74 | read through the header file's declarations: cc and pk from their first match, input from the first ciphertext, output from the last ciphertext when there are at least two |
| Scenario.NoHeaderNoNames | rdagent/scenarios/fhe_challenge/scen.py:59 | without `yourSolution.h` no name is extracted |
| Scenario.NewScenario | rdagent/scenarios/fhe_challenge/scen.py:23-36 | the scenario keeps its name, text and templates, has one of the two types, and has only known role keys |
| Scenario.ScenarioAllDesc | rdagent/scenarios/fhe_challenge/scen.py:82-94 | the loop over the templates builds exactly the scenario description |
| Scenario.FileSectionsPrefix | rdagent/scenarios/fhe_challenge/scen.py:92-93 | the sections only grow: earlier sections are a prefix of later ones |
| Scenario.SectionAt | rdagent/scenarios/fhe_challenge/scen.py:92-93 | each template's section appears after those of the files before it |
| Scenario.AllDescHeading | rdagent/scenarios/fhe_challenge/scen.py:89-91 | the description is the introduction alone exactly when there are no templates; otherwise the template heading follows it |
| Scenario.AllDescSection | rdagent/scenarios/fhe_challenge/scen.py:92-93 | every template file's fenced section occurs in the description, in file order |
| Loop.OverrideRule | rdagent/app/fhe_challenge/loop.py:187-194 | a non-empty directory replaces the setting; a numeric option replaces it only when it differs from its default; the loop limit is untouched |
| Loop.OverrideIdempotent | rdagent/app/fhe_challenge/loop.py:187-194 | the default command line changes nothing, and applying the same overrides twice is applying them once |
| Loop.LaunchGuard | rdagent/app/fhe_challenge/loop.py:196-200 | launching is refused exactly when neither the command line nor the setting names a directory |
| Loop.FHEPropSetting.constructor | rdagent/app/fhe_challenge/conf.py:25-41 | defaults: no directory, 600 s timeouts, 20 loops, threshold 0.8 |
| Loop.FHEPropSetting.ApplyCommandLine | rdagent/app/fhe_challenge/loop.py:187-200 | the settings become the overridden values, and a `ValueError` is raised exactly when no directory results |
| Loop.SelectExperimentPreference | rdagent/app/fhe_challenge/loop.py:112-120 | the running experiment is preferred, then the coded one, and the generated one only after an exception |
| Loop.ExceptionBypassesEvaluator | rdagent/app/fhe_challenge/loop.py:98-100 | after an exception the feedback ignores the run, the threshold and the best attempt |
| Loop.StepFeedbackDecision | rdagent/app/fhe_challenge/loop.py:102-103 | without an exception the decision is the evaluator's threshold test |
| Loop.FHERDLoop.constructor | rdagent/app/fhe_challenge/loop.py:54-62 | the loop keeps its scenario and threshold and starts with an empty trace |
| Loop.FHERDLoop.New | rdagent/app/fhe_challenge/loop.py:50-62 | creation fails with `ValueError` exactly when the directory is unset; otherwise the trace is fresh and empty, and the threshold is the setting's |
| Loop.FHERDLoop.FeedbackStep | rdagent/app/fhe_challenge/loop.py:96-105 | an exception gives its own feedback; otherwise the decision is the threshold test on the running experiment |
| Loop.FHERDLoop.Record | rdagent/app/fhe_challenge/loop.py:107-127 | a selected experiment is appended with its feedback and a root parent entry; with none the trace is unchanged; history and parents stay in step |
| Summary.Report | rdagent/log/fhe_summary.py:131-142 | a missing name falls back to the run directory's name, and a missing type to "unknown" |
| Summary.Absorb | rdagent/log/fhe_summary.py:96-129 | one iteration of the message loop is exactly one step of the fold |
| Summary.SummarizeOneRun | rdagent/log/fhe_summary.py:73-142 | the loop over the messages returns exactly the report of the fold |
| Summary.LoopNumIsMaxPlusOne | rdagent/log/fhe_summary.py:75-98 | the loop count is one more than the largest loop id, or 0 when no message has one |
| Summary.BestAccuracyIsMax | rdagent/log/fhe_summary.py:114-122 | the best accuracy is the largest accuracy of any run message, and `None` when none has one |
| Summary.PassingAtStep | rdagent/log/fhe_summary.py:125-129 | one more message adds one pass exactly when it is a passing verdict |
| Summary.PassNumCounts | rdagent/log/fhe_summary.py:125-129 | the pass count is the number of passing verdict messages |
| Summary.NoPassesNoCount | rdagent/log/fhe_summary.py:76-129 | the pass count is 0 exactly when no verdict passed |
| Summary.SolvedIffPassed | rdagent/log/fhe_summary.py:153 | a run is solved exactly when some verdict passed |
| Summary.VerdictsFor | rdagent/log/fhe_summary.py:125 | one flag per message, marking the verdicts for a loop |
| Summary.DecisionLastWins | rdagent/log/fhe_summary.py:125-127 | a loop's decision is that of its last verdict message, and there is none without one |
| Summary.RunsFor | rdagent/log/fhe_summary.py:114 | one flag per message, marking the runs for a loop |
| Summary.AccuracyLastWins | rdagent/log/fhe_summary.py:114-117 | a loop's accuracy is that of its last run message, `None` included |
| Summary.NoSettingsFallback | rdagent/log/fhe_summary.py:104-133 | without a settings message the report names the run directory and the type "unknown" |
| TraceView.ExtractedBody | rdagent/log/ui/fhe_trace.py:171-191 | no marker gives `None`; a found body is non-empty and stripped |
| TraceView.ExtractEvalBody | rdagent/log/ui/fhe_trace.py:171-191 | the depth-scan method returns exactly the extracted body |
| TraceView.CloseFromAt | rdagent/log/ui/fhe_trace.py:184-189 | the scan stops at the first position where the depth falls to 0, or at the end of the text when it never does |
| TraceView.FramedPrefixNet | rdagent/log/ui/fhe_trace.py:184-189 | a balanced body between newlines never closes the depth early |
| TraceView.CloseAfterInjection | rdagent/log/ui/fhe_trace.py:181-189 | in a patched file, the scan stops one character after the injected body: after the closing brace, or at the end when the template's own scan ran to its end |
| TraceView.ExtractedAt | rdagent/log/ui/fhe_trace.py:178-191 | with the marker and the scan's stop known, the extracted body is the stripped text between them |
| TraceView.SpliceMarker | rdagent/log/ui/fhe_trace.py:178 | a patched file has the template's marker |
| TraceView.SpliceBetween | rdagent/log/ui/fhe_trace.py:190 | the text between the marker and the closing brace of a patched file is the injected body between newlines |
| TraceView.ExtractFromSplice | rdagent/log/ui/fhe_trace.py:171-191 | extracting from a patched file gives the stripped body, or `None` when it is blank |
| TraceView.InjectThenExtract | rdagent/log/ui/fhe_trace.py:171-191 | injecting a balanced body into any template with a marker, then extracting it, gives the stripped body back, or `None` when it is blank |
| TraceView.LoadFheData | rdagent/log/ui/fhe_trace.py:69-127 | the message loop builds exactly the fold of the messages |
| TraceView.PutSlot | rdagent/log/ui/fhe_trace.py:125 | storing by loop, step and tag segment sets that one slot and no other |
| TraceView.LoadSlot | rdagent/log/ui/fhe_trace.py:122-125 | one more message changes only the slot it is filed at |
| TraceView.LoadedLoops | rdagent/log/ui/fhe_trace.py:111-120 | a loop id appears exactly when some per-loop message names it |
| TraceView.Filings | rdagent/log/ui/fhe_trace.py:122-125 | one flag per message, marking those filed at a slot |
| TraceView.LoadedLastWins | rdagent/log/ui/fhe_trace.py:122-125 | each slot holds the content of the last message filed there, and is empty when none was |
| TraceView.LoadedSettings | rdagent/log/ui/fhe_trace.py:111-112 | the settings are those of the last settings message, and absent without one |
| TraceView.HasLeast | rdagent/log/ui/fhe_trace.py:131 | every non-empty set of loop ids has a least element |
| TraceView.LeastFrom | rdagent/log/ui/fhe_trace.py:131 | counting up from a lower bound reaches the least element |
| TraceView.AppendLeast | rdagent/log/ui/fhe_trace.py:131 | appending the least remaining id keeps the listed ids ascending and complete |
| TraceView.GetLoopIds | rdagent/log/ui/fhe_trace.py:130-131 | the ids come out strictly ascending and are exactly the loop keys |
| TraceView.LoopCode | rdagent/log/ui/fhe_trace.py:143-148 | a loop's code is the run experiment's non-empty file dictionary, else the coded experiment's |
| TraceView.GetLatestCode | rdagent/log/ui/fhe_trace.py:134-149 | `None` exactly when no loop has code; otherwise the code of the highest loop that has some |
| Text.ToLower | rdagent/scenarios/fhe_challenge/runner.py:201 | each ASCII capital becomes its small letter and every other character stays, position by position |
| Text.Span | rdagent/scenarios/fhe_challenge/scen.py:40 | a greedy run stops at the first character outside its class |
| Text.Take | rdagent/scenarios/fhe_challenge/developer.py:92 | `s[:n]` is the prefix of length min(n, len(s)) |
| Text.TakeLast | rdagent/scenarios/fhe_challenge/developer.py:94 | `s[-n:]` is the suffix of length min(n, len(s)) |
| Text.Strip | rdagent/scenarios/fhe_challenge/developer.py:117 | the result has no leading or trailing whitespace and is no longer than the input |
| Text.StripIdempotent | rdagent/scenarios/fhe_challenge/developer.py:117 | stripping twice is stripping once |
| Text.FirstOccurrence | rdagent/log/fhe_summary.py:104 | the first position at or after the start where the substring occurs, with none before it |
| Text.JoinStartsWithFirst | rdagent/scenarios/fhe_challenge/proposal.py:90 | a joined list opens with its first element |
| Text.LastSegment | rdagent/log/ui/fhe_trace.py:123-124 | `split('.')[-1]` is the dot-free suffix after the last separator |
| Text.PathName | rdagent/log/fhe_summary.py:105 | a path's name holds no `/` |
| Text.NatToStringRoundTrip | rdagent/scenarios/fhe_challenge/proposal.py:108 | the decimal digits of n read back as n |
| Text.ParseDecimal | rdagent/scenarios/fhe_challenge/runner.py:234 | `float` of a digit-and-dot token is non-negative, and a plain digit string gives its integer value |
| Text.ParseFraction | rdagent/scenarios/fhe_challenge/runner.py:234 | a token with one dot parses exactly when it has digits and no second dot |
| Text.RoundHalfEven | rdagent/scenarios/fhe_challenge/evaluator.py:62 | rounding lands within one half of the value, and on an exact half it lands on the even neighbour |
| Text.FormatFixed | rdagent/scenarios/fhe_challenge/evaluator.py:62 | `{x:.Nf}` of a non-negative number opens with a digit, and of a negative one with `-` |
| Text.FormatFixedReadsBack | rdagent/scenarios/fhe_challenge/evaluator.py:62 | `{x:.Nf}` is a `-` exactly for negative x, then digits, then (when N > 0) one dot and exactly N digits; reading the unsigned text back with `float()` gives abs(x) rounded half to even at the N-th decimal |
| Text.FixedDigitsReadsBack | rdagent/scenarios/fhe_challenge/evaluator.py:62 | the digits written for n at N decimals read back as n / 10^N, in the fixed-point shape |
| Text.LastSetIsLast | rdagent/log/ui/fhe_trace.py:125 | the last marked index is marked with no marked index after it, and there is none exactly when nothing is marked |

## Left out

- Docker, `subprocess`, the filesystem and `uuid` are not modelled. Each Docker command's outcome is an input (`DockerResult`). The files the runner copies are maps. Image cleanup is a flag the runner returns.
- The language model is not modelled. Its answer is a string parameter of `Gen` and `Develop`.
- Loop scheduling in the base class is not modelled: the step order, `skip_loop_error`, resuming from a checkpoint and the parallel-loop wait in `direct_exp_gen` (loop.py:75-80). `feedback` and `record` are modelled on a `StepOutputs` value that holds the earlier steps' results.
- `Trace.get_sota_hypothesis_and_experiment` is not part of this model. The best earlier accuracy is the parameter `sota`.
- `ExperimentFeedback.from_exception` is not part of this model. It is the parameter `fromException`.
- `FBWorkspace.inject_files` is not part of this model. `FHEExperiment.InjectFile` writes one map entry in its place.
- `extract_loopid_func_name` is not part of this model. Log messages arrive with their loop id and step name already read from the tag.
- `json.loads` and `json.dumps` are not modelled. `result.json` arrives decoded as a `Json` value, or as undecodable. The white-box config block goes through a `reformat` oracle.
- Floats are exact reals, so rounding error in the accuracy sums is not modelled. `float()` of a captured token is modelled on digit-and-dot tokens (`ParseDecimal`), which is all the patterns capture. `float()` of a JSON string in `result.json` is the `parse` oracle of `Runner.ToFloat`.
- NaN and the infinities are not reals. In the source, `float("nan")`, `float("inf")` and JSON's `NaN`/`Infinity` give values for which `abs(r - e) <= thresh` is normally false, so such a slot counts as wrong instead of raising. The model cannot express those values: the `parse` oracle of `Runner.ToFloat` either returns a real or raises.
- `\d` and `float()` accept only ASCII digits in the model. Python also accepts other Unicode decimal digits.
- `Text.ToLower` lower-cases ASCII letters only, so it keeps the length. Python's `str.lower()` also folds non-ASCII letters, and for U+0130 it yields two characters, changing the length. Keeping the length is a property of the model only.
- `\w` is modelled as ASCII letters, digits and `_`. Python's Unicode word characters are not.
- proposal.py:92-103 `_format_variable_names` is left out. It only feeds the proposal prompt. The coder's variant, which the code prompt uses, is modelled as `Developer.FormatVariableNames`.
- `background`, `get_runtime_environment` and `rich_style_description` return constant or copied text and are left out. Prompt formatting and the prompt files are left out too.
- The directory checks in `FHEScenario.__init__` (the two `ValueError`s) and the directory listing in `_load_templates` are I/O. The scenario is built from the directory name, the challenge text and the sorted template list (`NewScenario`).
- Logging, the Streamlit viewer (fheapp.py, `_show_file_dict` and the rendering in fhe_trace.py), `_print_summary`'s printing and `summarize_fhe`'s pickling are left out. Only `_print_summary`'s solved verdict is modelled, as `Summary.Solved`.
- `_challenge_info` in fhe_trace.py is left out. It only picks display strings.
- Python truthiness of experiment objects is modelled as `Option` presence (`SelectExperiment`).
- `Runner.ScoreTestcases` updates the error message once, after the testcase loop, instead of once per failing testcase. The final experiment state is the same, because nothing reads the message inside the loop.
- `Patcher.FindMarker` states only the match's bounds in its own contract. That the match ends just past `{` is stated by the `Patcher.FindMarkerBrace` lemma.
- `Runner.ParseAccuracyBlackBox` and `Runner.ParseAccuracyFromOutput` state only that an accuracy is non-negative in their own contracts. Their exact results on sample lines are stated by `AccuracyLineParsed`, `LowerCaseLabel`, `SlotsLineParsed`, `SlotsOnly` and `TrailingDotRaises`.
