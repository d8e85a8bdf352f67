# network-log-formatter core, modelled in Dafny

The application turns a few sample log lines into a Python program that converts whole
directories of logs to spreadsheets. A chat model writes the program, and a syntax checker
validates it. If the check fails, the model is asked to repair the code, within a budget of
retries. The batch executor then runs the program over an input directory. It reads the
program's JSON progress lines and publishes progress snapshots. When the program crashes,
the executor asks the model for a runtime repair and tries again. Projects (sample, code and
status) are stored one JSON file per project.

This project models that core, one Dafny module per source file:

| file | module | models |
|---|---|---|
| `wrappers.dfy` | `Wrappers` | `Option`, `Result` (Go's `(value, error)` pairs) and `Outcome` (a bare `error`) |
| `text.dfy` | `Text` | the Go library functions the core relies on: `strings.TrimSpace` (with `unicode.IsSpace`), `strings.Index`/`Contains`, `strings.LastIndex` on one character, `%d` formatting and `strconv.Atoi` on digit strings |
| `model.dfy` | `Model` | the records of `internal/model/model.go` |
| `llm_client.dfy` | `LlmClient` | `internal/agent/llm_client.go`: constructor guards, role mapping, `Chat` filling its message array in a loop |
| `sample_analyzer.dfy` | `SampleAnalysis` | `internal/agent/sample_analyzer.go`: prompt construction, fenced-block extraction, the Python-looking fallback, `Analyze` |
| `code_validator.dfy` | `CodeValidation` | `internal/agent/code_validator.go`: the check/repair loop `Validate`, proved against the recursive specification `ValidateFrom` |
| `executor.dfy` | `Executor` | `internal/executor/batch_executor.go`: the class `BatchExecutor` with its progress cell, `readStdout`, `runScript` and the run/repair loop of `Execute`, proved against `ExecuteSpec`/`ExecLoop` |
| `project_store.dfy` | `ProjectStore` | `internal/project/project_manager.go`: file naming, `uniqueName`, and the class `ProjectManager` over a map from file name to file contents |
| `app.dfy` | `App` | `app.go`: `extractRepairCode`, the runtime-repair adapter, `GetShowWizard`, and the class `App` with `initLLMComponents`, `SaveSettings`, `AnalyzeSample`, `RunBatch` and `GetBatchProgress` |

Everything outside the core is an oracle passed in as a deterministic function value. This
covers the chat model's `Generate`, the interpreter's syntax check, one run of a script,
`os.Stat`/`filepath.Abs`/`os.MkdirAll` and the JSON decoding of one progress line. It also
covers the environment manager's services and the settings file's load or save outcome. The
clock (`time.Now`) and `uuid.New` are plain parameters.

Proof structure:
- Each imperative operation is proved equal to a recursive specification function:
  `Validate` to `Run`/`ValidateFrom`, `Execute` to `ExecuteSpec`/`ExecLoop`, `ReadStdout` to
  `Records`/`LastRecordCounts`, `UniqueName` to `UniqueNameSpec`, and `Chat` to `ChatReply`.
- The source's promises are then proved about those functions: retry bounds, the first
  passing attempt or successful run, the last failure text, exhausting the budget, early aborts, the last progress record winning,
  and the terminal snapshot being the last one published.
- The progress cell is the field `progress`. A ghost `history` records every snapshot
  published, so the order of publications is part of each method's contract.

Where the specification and the code disagree, the model follows the code:
- The "fixing" message counts attempts from 1: `attempt + 1`, not `attempt`.
- The batch result's `failed` count is never set by the executor. So the invariant
  `totalFiles == succeeded + failed` is not claimed for `Execute`.
- When the loop stops early, the error text still says "failed after maxRetries retries".
  It cites maxRetries even after fewer than maxRetries + 1 runs: one run when the first
  repair fails or no repairer is set, and n runs when the repair after the n-th run fails.
- Only a "does not exist" answer from `os.Stat` stops `Execute`. Other stat errors pass
  through.

## Model

| member | source | states |
|---|---|---|
| `Text.TrimSpace` | internal/executor/batch_executor.go:214 | the result has no leading or trailing white space (`unicode.IsSpace`), is no longer than the input, and is empty exactly when the input is blank |
| `Text.TrimSpaceIdempotent` | internal/agent/sample_analyzer.go:93 | trimming twice is trimming once |
| `Text.TrimSpaceDecomposes` | internal/executor/batch_executor.go:197 | the input is leading white space, then the trimmed text, then trailing white space |
| `Text.IndexOf` | internal/agent/sample_analyzer.go:108 | `strings.Index`: the first position where the pattern occurs, `None` when it occurs nowhere |
| `Text.FirstAtJoin` | internal/agent/sample_analyzer.go:114-121 | a pattern absent from a prefix is found first in what follows it, at the shifted position |
| `Text.LastIndexOfChar` | internal/project/project_manager.go:147 | the last position holding the character, with none after it; `None` when absent |
| `Text.NatToString` | internal/project/project_manager.go:159 | `%d` of a natural number is a non-empty digit string |
| `Text.ParseNatToString` | internal/project/project_manager.go:152 | `Atoi` undoes `%d` |
| `Text.NatToStringInjective` | internal/project/project_manager.go:159 | different numbers format differently |
| `LlmClient.NewLLMClient` | internal/agent/llm_client.go:24-46 | the three fields are checked in order with their messages; the client exists exactly when all are set and the library connects, and it generates what the library generates |
| `LlmClient.ConvertRole` | internal/agent/llm_client.go:71-82 | "system" and "assistant" map to their roles; every other string maps to the user role |
| `LlmClient.ConvertMessages` | internal/agent/llm_client.go:54-60 | same length, same order, same contents, roles mapped |
| `LlmClient.ChatReply` | internal/agent/llm_client.go:49-68 | an empty conversation fails without consulting the model; otherwise the model's reply comes back unchanged or its error comes back wrapped |
| `LlmClient.Chat` | internal/agent/llm_client.go:49-68 | the array filled in the loop is the converted conversation, so the reply is `ChatReply` |
| `SampleAnalysis.AnalysisMessages` | internal/agent/sample_analyzer.go:28-37 | two messages: system instructions, then the user prompt built from the sample |
| `SampleAnalysis.UserPromptEmbedsSample` | internal/agent/sample_analyzer.go:73-76 | the user prompt holds the sample verbatim between a fence line and a closing fence |
| `SampleAnalysis.ExtractFencedBlock` | internal/agent/sample_analyzer.go:107-128 | no block when the prefix is absent; a block found is trimmed and holds no fence |
| `SampleAnalysis.FencedBlockRoundTrip` | internal/agent/sample_analyzer.go:107-128 | a block written as prefix, tag line, body and closing fence is read back as the trimmed body |
| `SampleAnalysis.NoNewlineNoBlock` | internal/agent/sample_analyzer.go:108-117 | no block when no newline follows the first occurrence of the prefix, whatever comes before it |
| `SampleAnalysis.UnclosedFenceNoBlock` | internal/agent/sample_analyzer.go:108-124 | no block when no closing fence follows the line of the first occurrence of the prefix, whatever that line holds |
| `SampleAnalysis.Fallback` | internal/agent/sample_analyzer.go:92-102 | the fallback is either "" or the trimmed reply, and only when it contains a Python token |
| `SampleAnalysis.ExtractCodeShape` | internal/agent/sample_analyzer.go:81-103 | extracted code is always trimmed; with a block it holds no fence; with no block it is the fallback |
| `SampleAnalysis.PythonFenceImpliesFence` | internal/agent/sample_analyzer.go:83-90 | a Python block found implies a plain block found |
| `SampleAnalysis.ExtractCodeFromPythonBlock` | internal/agent/sample_analyzer.go:83-85 | a Python block yields its trimmed interior, whatever follows |
| `SampleAnalysis.ExtractCodeFromBlankPythonBlock` | internal/agent/sample_analyzer.go:83-85 | an empty Python block yields "", with no fall-through to later blocks or the fallback |
| `SampleAnalysis.ExtractCodeFromPlainBlock` | internal/agent/sample_analyzer.go:88-90 | without a Python block, the first plain block (any tag) yields its trimmed interior |
| `SampleAnalysis.ExtractCode` | internal/agent/sample_analyzer.go:81-103 | a Python block first, then any block, then the fallback; its properties are the `ExtractCode…` lemmas and `ExtractCodeShape` |
| `SampleAnalysis.ExtractCodeUnclosedFence` | internal/agent/sample_analyzer.go:92-102 | a first fence whose line is not followed by any fence falls through to the fallback |
| `SampleAnalysis.Analyze` | internal/agent/sample_analyzer.go:23-50 | a blank sample is refused before the model is asked; the model sees exactly the two messages; its error passes through; a reply with no code is an error; returned code is non-empty and trimmed |
| `CodeValidation.CheckSyntax` | internal/agent/code_validator.go:91-118 | exactly the temp-dir and temp-file failures are errors, each with its message; a compile that succeeds gives the empty diagnostic |
| `CodeValidation.CheckSyntaxDiagnostic` | internal/agent/code_validator.go:108-114 | a failed compile gives its trimmed output, or the process error when that output is blank, so the diagnostic is non-empty whenever the error has text |
| `CodeValidation.RepairMessages` | internal/agent/code_validator.go:123-136 | system instructions, then the code and its diagnostic in fenced blocks |
| `CodeValidation.RepairCode` | internal/agent/code_validator.go:122-144 | `repairCode`: the chat reply to the repair conversation, through `extractCode`; pinned by `RepairCodeReply` |
| `CodeValidation.RepairCodeReply` | internal/agent/code_validator.go:122-144 | a repair passes the chat error on, or returns the extracted code of the reply |
| `CodeValidation.Steps` | internal/agent/code_validator.go:52-74 | the loop's check is `checkSyntax` through the interpreter, and its repair is `repairCode` through the client |
| `CodeValidation.ValidateFrom` | internal/agent/code_validator.go:51-86 | errors only grow; valid results pass the check, with one error per earlier attempt; invalid results carry `maxRetries` retries, `maxRetries + 1` errors and the last diagnostic |
| `CodeValidation.Run` | internal/agent/code_validator.go:43-87 | valid: retries within the budget, one error per retry, and the code passes the check; invalid: retries = maxRetries and maxRetries + 1 errors |
| `CodeValidation.Validate` | internal/agent/code_validator.go:43-87 | the loop returns `Run`; at most maxRetries + 1 checks and at most maxRetries repairs; repairs ≤ checks ≤ repairs + 1; a loop that returns a result with a non-negative budget made one more check than repairs, so no repair follows the last check; the error count is the failed checks |
| `CodeValidation.ReachPrefix` | internal/agent/code_validator.go:51-80 | every stage before a reached stage is reached |
| `CodeValidation.ValidationContinues` | internal/agent/code_validator.go:51-80 | from a reached stage the loop's remaining run equals the whole run |
| `CodeValidation.FirstPassAt` | internal/agent/code_validator.go:57-63 | the first passing check at attempt k gives valid, retries k, and that stage's candidate and errors |
| `CodeValidation.Exhausted` | internal/agent/code_validator.go:66-86 | a failing last check ends invalid with the last candidate, one more error and no further repair |
| `CodeValidation.CheckErrorAborts` | internal/agent/code_validator.go:52-55 | a check that cannot run aborts with that error |
| `CodeValidation.RepairErrorAborts` | internal/agent/code_validator.go:74-77 | a failed repair aborts with that error, without using up more attempts |
| `CodeValidation.NoBudget` | internal/agent/code_validator.go:51-86 | a negative budget checks nothing and returns the code unchanged, invalid |
| `Executor.RunningSnapshot` | internal/executor/batch_executor.go:226-233 | a progress record republishes status "running" with its file, fraction, total and current |
| `Executor.Records` | internal/executor/batch_executor.go:213-223 | the stdout lines that trim to something and decode, in order |
| `Executor.LastRecordCounts` | internal/executor/batch_executor.go:237-238 | the counts come from the last record; failed, output path and errors are untouched |
| `Executor.RunningSnapshots` | internal/executor/batch_executor.go:226-233 | one running snapshot per record, in order |
| `Executor.RecordsAppend` | internal/executor/batch_executor.go:213-240 | the records of concatenated output are the concatenation of the records |
| `Executor.NoiseHasNoRecords` | internal/executor/batch_executor.go:215-223 | output made only of blank or undecodable lines has no records |
| `Executor.NoiseIgnored` | internal/executor/batch_executor.go:215-223 | blank and undecodable lines anywhere change nothing |
| `Executor.LastRecordWins` | internal/executor/batch_executor.go:235-239 | counts are set, not added: the last record's total and current win, and failed is untouched |
| `Executor.RunScriptSpec` | internal/executor/batch_executor.go:145-207 | `runScript`: temp failures publish nothing, a start failure publishes "starting", an exited run publishes "starting" and one snapshot per record; pinned by `RunShape` and `BatchExecutor.RunScript` |
| `Executor.ExecLoop` | internal/executor/batch_executor.go:84-140 | the loop from one attempt on; its properties are `LoopCounts`, `LoopEnding` and `LoopOutcome` |
| `Executor.AfterRun` | internal/executor/batch_executor.go:85-129 | one pass after its run: success returns, a failure gives up or repairs and goes on; proved with `AfterRunCounts` and `AfterRunEnding` |
| `Executor.Prepare` | internal/executor/batch_executor.go:60-79 | the loop runs only on non-blank, existing directories, on the absolute paths `filepath.Abs` gave, after the output directory was created |
| `Executor.Advance` | internal/executor/batch_executor.go:99-129 | the loop goes on from an attempt only when its run failed, a retry remains and the repair succeeded |
| `Executor.ReachContinues` | internal/executor/batch_executor.go:84-129 | from a reached stage the whole loop is that stage's snapshots and counts followed by the loop from there |
| `Executor.ReachEarlierFailed` | internal/executor/batch_executor.go:84-129 | every run before a reached stage failed, with a retry left |
| `Executor.FirstSuccessAt` | internal/executor/batch_executor.go:84-98 | the first successful run returns at once with its own result and no error, after k + 1 runs and k repairs, ending on "completed" |
| `Executor.GiveUpAt` | internal/executor/batch_executor.go:99-140 | where the loop stops on a failed run, the error, the result's one error and the "failed" snapshot carry that run's failure text; "fixing" precedes it when a retry remained |
| `Executor.StopsAtReach` | internal/executor/batch_executor.go:84-129 | the loop stops at a reached stage within the budget, after as many runs as it makes |
| `Executor.LoopOutcome` | internal/executor/batch_executor.go:84-140 | the loop's last run is at a reached stage; no error exactly when that run succeeded, with its result; otherwise the give-up values for its failure text |
| `Executor.NilRepairerRunsOnce` | internal/executor/batch_executor.go:110-118 | without a repairer the script runs once; a failure publishes "fixing" (when a retry remained) and then "failed" with its text |
| `Executor.LoopCounts` | internal/executor/batch_executor.go:84-130 | from any attempt with retries left, at least one and at most the remaining attempts' runs; repairs ≤ runs ≤ repairs + 1 |
| `Executor.LoopEnding` | internal/executor/batch_executor.go:84-140 | the loop always returns a result; success ends on a completed snapshot with the output path and no errors; failure gives up with one error and the budget in the message; exactly the last snapshot is terminal |
| `Executor.RunShape` | internal/executor/batch_executor.go:145-241 | a single run publishes nothing terminal; a successful run reports the output directory and no errors |
| `Executor.ExecuteSpec` | internal/executor/batch_executor.go:50-61 | blank input, blank output and a missing input directory are refused in that order, with nothing run and nothing published |
| `Executor.ExecuteBounds` | internal/executor/batch_executor.go:50-141 | any refusal runs nothing and publishes nothing; otherwise at most maxRetries + 1 runs, repairs ≤ runs, the last snapshot is terminal, and giving up cites the budget |
| `Executor.FailuresExhaustBudget` | internal/executor/batch_executor.go:84-130 | a script that always fails, with a repairer that always answers, uses maxRetries + 1 runs and maxRetries repairs |
| `Executor.RepairFailureStopsEarly` | internal/executor/batch_executor.go:124-128 | with a repairer that always fails, the loop stops after one run and one repair request, and still gives up |
| `Executor.QuietSuccess` | internal/executor/batch_executor.go:84-97 | a script that prints only blank or undecodable lines and exits 0 succeeds at once with zero counts and no repair, publishing only "starting" and "completed" |
| `Executor.BatchExecutor.constructor` | internal/executor/batch_executor.go:35-44 | the cell starts "idle" |
| `Executor.BatchExecutor.GetProgress` | internal/executor/batch_executor.go:244-251 | the current snapshot, which is the last one published |
| `Executor.BatchExecutor.SetProgress` | internal/executor/batch_executor.go:254-258 | the snapshot is replaced wholesale and recorded as published |
| `Executor.BatchExecutor.ReadStdout` | internal/executor/batch_executor.go:211-241 | the loop leaves `LastRecordCounts` of the records and publishes one running snapshot per record |
| `Executor.BatchExecutor.RunScript` | internal/executor/batch_executor.go:145-207 | temp failures publish nothing; otherwise "starting" is published first; the outcome and snapshots are `RunScriptSpec` |
| `Executor.BatchExecutor.Execute` | internal/executor/batch_executor.go:50-141 | returns `ExecuteSpec` and publishes exactly its snapshots, in order |
| `Executor.BatchExecutor.RetryLoop` | internal/executor/batch_executor.go:81-140 | the attempt loop returns `ExecLoop` and publishes exactly its snapshots |
| `Executor.BatchExecutor.Attempt` | internal/executor/batch_executor.go:84-129 | one pass of the loop: either it ends the loop with `ExecLoop`'s result and snapshots, or it leaves a retry, having published exactly what precedes the rest of the loop on the repaired code |
| `Executor.BatchExecutor.AfterFailure` | internal/executor/batch_executor.go:100-129 | after a failed run: give up when no retry remains, no client is configured or the repair fails; otherwise "fixing" is published and the repaired code continues the loop |
| `ProjectStore.Base` | internal/project/project_manager.go:171 | `filepath.Base`: never empty, no separator except for "/", "." for "", identity on plain names |
| `ProjectStore.BaseIsLastElement` | internal/project/project_manager.go:171 | "/" exactly for a path of slashes; otherwise the last element: the separator-free end of the path with trailing slashes dropped, preceded there by '/' or by nothing |
| `ProjectStore.ExtIsSuffix` | internal/project/project_manager.go:57 | `filepath.Ext`: "" or a suffix of the name that starts with '.' and has no separator |
| `ProjectStore.Sanitized` | internal/project/project_manager.go:171-174 | the base of the id, with "", "." and ".." replaced by "_invalid_"; pinned by `FileNameIsPlain` |
| `ProjectStore.FileName` | internal/project/project_manager.go:171-175 | the sanitized base plus ".json"; pinned by `FileNameIsPlain` and `JsonNameExt` |
| `ProjectStore.FilePath` | internal/project/project_manager.go:168-176 | the file name joined to the storage directory |
| `ProjectStore.Ext` | internal/project/project_manager.go:57 | `filepath.Ext`; pinned by `ExtIsSuffix` and `ExtDotSuffix` |
| `ProjectStore.ExtDotSuffix` | internal/project/project_manager.go:57 | a name ending in '.' and a suffix free of '.' and '/' has that dot and suffix as its extension |
| `ProjectStore.FileNameIsPlain` | internal/project/project_manager.go:168-176 | a project's file never has a separator and is never "." or ".."; it ends in ".json" and is listed; a plain id keeps its name |
| `ProjectStore.FileNameOfBase` | internal/project/project_manager.go:171 | an id and its base share a file |
| `ProjectStore.JsonNameExt` | internal/project/project_manager.go:57 | every name + ".json" has extension ".json" |
| `ProjectStore.Lookup` | internal/project/project_manager.go:79-93 | a missing file is "project not found: id"; an undecodable one is an unmarshal error; otherwise the stored project |
| `ProjectStore.TakenNamesIff` | internal/project/project_manager.go:135-140 | a name is taken exactly when a project with another id carries it |
| `ProjectStore.CandidateInjective` | internal/project/project_manager.go:159 | different suffixes give different candidates |
| `ProjectStore.FirstFree` | internal/project/project_manager.go:158-163 | the counting loop terminates at the first free candidate, and every earlier one is taken |
| `ProjectStore.SplitSuffix` | internal/project/project_manager.go:146-156 | the `^(.+)_(\d+)$` split: a non-empty root before the last '_', or the whole name; start at least 2 |
| `ProjectStore.UniqueNameSpec` | internal/project/project_manager.go:134-164 | the name is free; it is the base exactly when the base is free; otherwise it is the first free `root_k` from the start |
| `ProjectStore.UniqueName` | internal/project/project_manager.go:134-164 | the two loops compute `UniqueNameSpec` of the other projects' names |
| `ProjectStore.OwnNameKept` | internal/project/project_manager.go:136-144 | a name held only by the project itself is kept |
| `ProjectStore.SecondCopy` | internal/project/project_manager.go:148-161 | a taken plain name gets "_2" |
| `ProjectStore.CountsOnFromSuffix` | internal/project/project_manager.go:150-161 | a taken "log_3" becomes "log_4" |
| `ProjectStore.SortByCreated` | internal/project/project_manager.go:71-73 | newest first, and a permutation of the input |
| `ProjectStore.PermutationKeepsDistinct` | internal/project/project_manager.go:71-73 | sorting cannot list a file twice |
| `ProjectStore.ProjectManager.constructor` | internal/project/project_manager.go:24-29 | a store over its directory |
| `ProjectStore.ProjectManager.Get` | internal/project/project_manager.go:79-93 | `Lookup` of the current files |
| `ProjectStore.ProjectManager.ReadEntries` | internal/project/project_manager.go:55-69 | every ".json" file holding a record, each once, with other files skipped |
| `ProjectStore.ProjectManager.List` | internal/project/project_manager.go:49-76 | newest first; each listed file once; each entry is that file's record; no listed file is missed |
| `ProjectStore.ProjectManager.TakenByOthers` | internal/project/project_manager.go:36-37 | the listed projects give exactly the names held by other ids |
| `ProjectStore.ProjectManager.Create` | internal/project/project_manager.go:34-46 | a non-empty name is made unique against the other projects; the record is written to its file and nothing else changes |
| `ProjectStore.ProjectManager.Update` | internal/project/project_manager.go:96-120 | a lookup error is returned and changes nothing; otherwise only the present fields change (the name made unique), `updatedAt` is set, and id, sample and creation time are kept |
| `ProjectStore.ProjectManager.Delete` | internal/project/project_manager.go:123-129 | a missing file is "not found" and changes nothing; otherwise only that file is removed, and the project is gone |
| `App.ExtractRepairCode` | app.go:429-451 | a Python block, then any block, else the reply as received; pinned by `RepairExtractionAgrees` |
| `App.RepairExtractionAgrees` | app.go:429-451 | where a block exists, repair extraction equals analysis extraction; otherwise it returns the reply unchanged |
| `App.UnfencedReplyKept` | app.go:450 | a reply without a fence is used as is, untrimmed |
| `App.RepairKeepsProse` | app.go:450 | fence-free prose is kept by repair extraction but refused ("") by analysis extraction |
| `App.RepairFromPythonBlock` | app.go:431-438 | a Python block yields its trimmed interior |
| `App.RuntimeRepairMessages` | app.go:405-418 | system instructions for a runtime error, then the code and the error |
| `App.AdapterRepair` | app.go:404-426 | the adapter passes a chat error on, or returns `extractRepairCode` of the reply |
| `App.GetShowWizard` | app.go:343-352 | the wizard is hidden exactly when settings load and say `false` |
| `App.AnalysisStatus` | app.go:145-154 | "validated" exactly when valid, else "draft" |
| `App.ExecutionStatus` | app.go:212-216 | "executed" exactly when `Execute` returned no error, else "failed" |
| `App.Generation` | app.go:117-181 | the id is the one given; a valid result passes the syntax check; with a non-negative budget, an invalid result from a validator has maxRetries + 1 errors |
| `App.GenerationGuards` | app.go:118-132 | no analyzer, then a blank name, then an analysis failure: each refused in that order with its message |
| `App.GenerationUsesValidator` | app.go:134-180 | without a validator the analysis code is a draft with no errors; with one, the result carries its final code, verdict and errors |
| `App.ValidatedCodeChecks` | app.go:148-154 | a result is valid exactly when its code passes the check within the retry budget |
| `App.App.constructor` | app.go:40-54 | no chat components, environment not ready |
| `App.App.FinishEnvInit` | app.go:79-90 | a set-up error is recorded; success marks the environment ready |
| `App.App.InitLLMComponents` | app.go:100-114 | a client that cannot be built changes nothing; otherwise the client, the analyzer, a three-retry validator and a fresh idle executor repairing through the adapter replace the old ones |
| `App.App.SaveSettings` | app.go:288-309 | a failed save changes nothing; otherwise the environment is rebuilt for the uv path ("uv" by default); with a configured connection, a client that connects replaces client, analyzer, validator and a fresh idle executor on the new environment, and one that does not keeps all four |
| `App.App.AnalyzeSample` | app.go:117-181 | returns `Generation`; on success the project is stored under its id with the trimmed, uniquified name, the final code, its status and `now` as both times |
| `App.App.RunBatch` | app.go:184-221 | five guards in order, none touching executor or store; then the executor publishes `ExecuteSpec`'s snapshots and only the project's status and update time change |
| `App.App.GetBatchProgress` | app.go:224-229 | "idle" without an executor, else the executor's current snapshot |

## Left out

- Subprocess and temp-file plumbing is left out. This covers pipes, the two concurrent stream
  readers, `cmd.Wait`, temp-directory removal and the interpreter command line. One run is a
  `ScriptRun` value; one check is a `CheckIo` value.
- Concurrency is left out: mutexes, the environment-initialisation goroutine and the batch
  goroutine of `RunBatch`. Everything runs sequentially. The batch runs to completion inside
  `RunBatch`, and the end of environment set-up is the method `FinishEnvInit`.
- Context deadlines and cancellation are left out, including the two-minute analysis
  timeout.
- The chat model, the interpreter, the script runner and the host calls are deterministic
  functions. Repeating a request gets the same answer.
- `bufio.Scanner`'s 64 KiB line limit is left out. The script's stdout is a sequence of
  lines.
- The JSON decoding of progress lines is an oracle. The float64 fraction is a real.
- The JSON round trip of `ProgressInfo` and `Project` is left out, as is time precision. A
  stored project reads back exactly.
- The store does not model `os` failures. This covers read errors other than "not found"
  ("failed to read project"), write, remove and marshal errors, subdirectories of the
  storage directory, and `NewProjectManager`'s `MkdirAll`. A file is either a record or
  contents that do not decode.
- `ProjectStore.Base`: follows Unix path rules only. On Windows, `filepath.Base` also
  splits on `\` and drops a volume name; the model splits on '/' alone. So
  `FileNameIsPlain`'s "no separator" holds for '/' only.
- Go strings are byte sequences, and the model's strings are sequences of code points.
  Lengths and positions therefore count characters, not bytes, and invalid UTF-8 is not
  represented.
- `strconv.Atoi` overflow in `uniqueName` is left out. The suffix is an unbounded natural
  number.
- `SampleAnalysis.SystemPrompt`: the wording of the analysis instructions is not part of
  this model. Only the message structure is.
- `App.App.AnalyzeSample`: the "failed to save project" error cannot arise, because store
  writes do not fail here.
- `App.App.RunBatch`: the error `Update` returns is ignored, as in the source, and the
  background task is not modelled as running concurrently with later calls.
- `startup`, `TestLLM`, `GetSettings`, `SetShowWizard`, `EnsurePythonEnv`, `GetEnvStatus`,
  `GetPythonEnvReady` and `IsLLMConfigured` are left out. They are settings-file I/O,
  environment provisioning or field reads.
- `ListProjects`, `GetProject`, `UpdateProjectCode`, `DeleteProject` and `RerunProject` are
  left out. They are one-line delegations to the store (or to `RunBatch`) behind the same
  nil check `RunBatch` makes.
- `SelectDirectory` is left out because it is a native dialog.
- `internal/pyenv`, `internal/config`, the frontend, `main.go` and `open_explorer_other.go`
  are not part of this model. The environment manager is the `Env` value of syntax checker
  and script runner.
- `NewSampleAnalyzer` and `NewCodeValidator` are field packing. They are the `LLMClient` and
  `CodeValidator` values.
