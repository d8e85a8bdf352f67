/**
 * The batch executor (`internal/executor/batch_executor.go`): directory checks, the
 * run/repair retry loop, the fold of the script's progress lines into the result, and
 * the progress cell that every step republishes wholesale.
 *
 * The operating system, the Python environment and the JSON decoder are oracles: one
 * run of the script is a `ScriptRun` value chosen by the environment manager for the
 * code and arguments it is given, and a repair is a call of the repairer. `ExecuteSpec`
 * and `ExecLoop` state what `Execute` returns and which snapshots it publishes, in
 * order; the class methods are proved against them.
 */
module Executor {
  import opened Wrappers
  import opened Text
  import opened Model

  /**
   * What happened when one candidate was run: the temp directory or the temp script
   * could not be made, the interpreter could not be started, or it ran and exited
   * (`waitError` is the text of a non-zero exit, `None` for exit code 0).
   */
  datatype ScriptRun =
    | TempDirFailed(error: string)
    | WriteFailed(error: string)
    | StartFailed(error: string)
    | Exited(stdout: seq<string>, stderr: string, waitError: Option<string>)

  /** The environment manager's `RunScript`, given the code and the command-line arguments. */
  type ScriptRunner = (string, seq<string>) -> ScriptRun

  /** The `LLMRepairer` interface: the code and its error text in, repaired code or a failure out. */
  type Repairer = (string, string) -> Result<string>

  /** The executor's collaborators: `envManager`, `llmClient` (`None` for a nil repairer) and `maxRetries`. */
  datatype Deps = Deps(envManager: ScriptRunner, llmClient: Option<Repairer>, maxRetries: int)

  /**
   * The host services `Execute` consults: `os.Stat` reporting a missing path, `filepath.Abs`,
   * `os.MkdirAll`, and `json.Unmarshal` of one progress line.
   */
  datatype Host = Host(
    isNotExist: string -> bool,
    abs: string -> Result<string>,
    mkdirAll: string -> Outcome,
    decode: string -> Option<ProgressInfo>)

  /** What `runScript` hands back to the loop: success with the result, or the trimmed stderr and the error. */
  datatype RunOutcome = RunOk(result: BatchResult) | RunErr(stderrOutput: string, error: string)

  /** `Execute`'s two return values: the result (nil as `None`) and the error (nil as `None`). */
  datatype ExecReturn = ExecReturn(result: Option<BatchResult>, error: Option<string>)

  /** One run of `runScript`: its outcome and the snapshots it published, oldest first. */
  datatype Attempt = Attempt(outcome: RunOutcome, published: seq<BatchProgress>)

  /** A whole execution: the return values, the snapshots published, and how many runs and repairs it made. */
  datatype Trace = Trace(ret: ExecReturn, published: seq<BatchProgress>, runs: nat, repairs: nat)

  const ErrEmptyInput := "input directory must not be empty"
  const ErrEmptyOutput := "output directory must not be empty"
  const ErrMissingInput := "input directory does not exist: "
  const ErrInvalidInput := "invalid input directory path: "
  const ErrInvalidOutput := "invalid output directory path: "
  const ErrCreateOutput := "failed to create output directory: "
  const ErrTempDir := "failed to create temp dir: "
  const ErrTempScript := "failed to write temp script: "
  const ErrStart := "failed to start script: "

  /** The snapshot published when a script is about to start. */
  const StartingSnapshot := BatchProgress("running", "", 0.0, 0, 0, 0, "Starting batch processing")

  /** The snapshot published for one progress record of the running script. */
  function RunningSnapshot(info: ProgressInfo): (p: BatchProgress)
    ensures p.status == "running" && p.currentFile == info.file && p.progress == info.progress
    ensures p.totalFiles == info.total && p.processed == info.current && p.failed == 0
  {
    BatchProgress("running", info.file, info.progress, info.total, info.current, 0, "Processing: " + info.file)
  }

  /** The snapshot published after a successful run: complete, with the result's counts. */
  function CompletedSnapshot(res: BatchResult): BatchProgress {
    BatchProgress("completed", "", 1.0, res.totalFiles, res.succeeded, res.failed, "Batch processing completed")
  }

  /** The snapshot published before a repair is requested after the failed attempt `attempt`. */
  function FixingSnapshot(attempt: int, maxRetries: int): BatchProgress {
    BatchProgress("fixing", "", 0.0, 0, 0, 0,
      "Runtime error detected, attempting repair (attempt " + IntToString(attempt + 1) + "/" + IntToString(maxRetries) + ")")
  }

  /** The snapshot published when the loop gives up. */
  function FailedSnapshot(lastErr: string): BatchProgress {
    BatchProgress("failed", "", 0.0, 0, 0, 0, "Batch processing failed: " + lastErr)
  }

  /** A snapshot that ends an execution. */
  predicate IsTerminal(p: BatchProgress) {
    p.status == "completed" || p.status == "failed"
  }

  /** The error `Execute` returns after giving up; it always cites the configured budget. */
  function FailureError(maxRetries: int, lastErr: string): string {
    "batch execution failed after " + IntToString(maxRetries) + " retries: " + lastErr
  }

  /**
   * The progress records among the script's stdout lines, in order: lines that trim to
   * nothing and lines that do not decode are skipped.
   */
  function Records(decode: string -> Option<ProgressInfo>, lines: seq<string>): seq<ProgressInfo> {
    if lines == [] then []
    else
      var line := TrimSpace(lines[|lines| - 1]);
      Records(decode, lines[..|lines| - 1])
      + (if line == "" then [] else match decode(line) case None => [] case Some(info) => [info])
  }

  /** The counts the records leave in the result: those of the last record, or the initial ones. */
  function LastRecordCounts(acc: BatchResult, recs: seq<ProgressInfo>): (r: BatchResult)
    ensures r.failed == acc.failed && r.outputPath == acc.outputPath && r.errors == acc.errors
    ensures recs == [] ==> r == acc
    ensures recs != [] ==> r.totalFiles == recs[|recs| - 1].total && r.succeeded == recs[|recs| - 1].current
  {
    if recs == [] then acc
    else acc.(totalFiles := recs[|recs| - 1].total, succeeded := recs[|recs| - 1].current)
  }

  /** One "running" snapshot per record, in the same order. */
  function RunningSnapshots(recs: seq<ProgressInfo>): (ps: seq<BatchProgress>)
    ensures |ps| == |recs|
    ensures forall i :: 0 <= i < |recs| ==> ps[i] == RunningSnapshot(recs[i])
  {
    if recs == [] then []
    else RunningSnapshots(recs[..|recs| - 1]) + [RunningSnapshot(recs[|recs| - 1])]
  }

  /** One more line adds at most its own record to those of the lines before it. */
  lemma RecordsStep(decode: string -> Option<ProgressInfo>, lines: seq<string>, i: int)
    requires 0 <= i < |lines|
    ensures var line := TrimSpace(lines[i]);
      Records(decode, lines[..i + 1]) == Records(decode, lines[..i])
      + (if line == "" then [] else match decode(line) case None => [] case Some(info) => [info])
  {
    assert lines[..i + 1][..i] == lines[..i];
  }

  /** One more record adds its own "running" snapshot at the end. */
  lemma RunningSnapshotsSnoc(recs: seq<ProgressInfo>, info: ProgressInfo)
    ensures RunningSnapshots(recs + [info]) == RunningSnapshots(recs) + [RunningSnapshot(info)]
  {
    assert (recs + [info])[..|recs|] == recs;
  }

  /** `runScript` for one candidate: which snapshots it publishes and what it reports back. */
  function RunScriptSpec(run: ScriptRun, decode: string -> Option<ProgressInfo>, outputDir: string): Attempt {
    match run
    case TempDirFailed(e) => Attempt(RunErr("", ErrTempDir + e), [])
    case WriteFailed(e) => Attempt(RunErr("", ErrTempScript + e), [])
    case StartFailed(e) => Attempt(RunErr("", ErrStart + e), [StartingSnapshot])
    case Exited(lines, stderr, waitError) =>
      var recs := Records(decode, lines);
      var published := [StartingSnapshot] + RunningSnapshots(recs);
      if waitError.None? then Attempt(RunOk(LastRecordCounts(BatchResult(0, 0, 0, outputDir, []), recs)), published)
      else Attempt(RunErr(TrimSpace(stderr), waitError.value), published)
  }

  /** The text a failed run leaves as `lastErr`: the trimmed stderr when it has any, otherwise the error. */
  function FailureText(o: RunOutcome): string
    requires o.RunErr?
  {
    if o.stderrOutput != "" then o.stderrOutput else o.error
  }

  /** The arguments given to the script. */
  function ScriptArgs(inputDir: string, outputDir: string): seq<string> {
    ["--input", inputDir, "--output", outputDir]
  }

  /** How the loop ends when it gives up: a "failed" snapshot and a result that carries only the error. */
  function GiveUp(maxRetries: int, lastErr: string): Trace {
    Trace(ExecReturn(Some(BatchResult(0, 0, 0, "", [lastErr])), Some(FailureError(maxRetries, lastErr))),
          [FailedSnapshot(lastErr)], 0, 0)
  }

  /** A trace that ended by giving up after `lastErr`. */
  predicate GaveUp(maxRetries: int, t: Trace) {
    && t.ret.result.Some? && t.ret.error.Some?
    && var res := t.ret.result.value;
    && res.totalFiles == 0 && res.succeeded == 0 && res.failed == 0 && |res.errors| == 1
    && t.ret.error.value == FailureError(maxRetries, res.errors[0])
    && |t.published| > 0 && t.published[|t.published| - 1] == FailedSnapshot(res.errors[0])
  }

  /** `t` with the snapshots `ps`, `runs` runs and `repairs` repairs done before it. */
  function After(ps: seq<BatchProgress>, runs: nat, repairs: nat, t: Trace): Trace {
    Trace(t.ret, ps + t.published, t.runs + runs, t.repairs + repairs)
  }

  /**
   * The run/repair loop from attempt `attempt` on, with `code` the current candidate and
   * `lastErr` the error text of the latest failed run.
   */
  function ExecLoop(d: Deps, decode: string -> Option<ProgressInfo>, inputDir: string, outputDir: string,
                    attempt: nat, code: string, lastErr: string): Trace
    decreases d.maxRetries - attempt, 1
  {
    if attempt > d.maxRetries then GiveUp(d.maxRetries, lastErr)
    else AfterRun(d, decode, inputDir, outputDir, attempt, code,
                  RunScriptSpec(d.envManager(code, ScriptArgs(inputDir, outputDir)), decode, outputDir))
  }

  /**
   * What the loop does once attempt `attempt` has run `code` with the outcome and
   * snapshots `a`: stop on success; on failure give up when no retry remains, no client
   * is configured or the repair fails, and otherwise go on with the repaired code.
   */
  function AfterRun(d: Deps, decode: string -> Option<ProgressInfo>, inputDir: string, outputDir: string,
                    attempt: nat, code: string, a: Attempt): Trace
    requires attempt <= d.maxRetries
    decreases d.maxRetries - attempt, 0
  {
    match a.outcome
    case RunOk(result) => Trace(ExecReturn(Some(result), None), a.published + [CompletedSnapshot(result)], 1, 0)
    case RunErr(_, _) =>
      var err := FailureText(a.outcome);
      if attempt >= d.maxRetries then After(a.published, 1, 0, GiveUp(d.maxRetries, err))
      else
        var fixing := a.published + [FixingSnapshot(attempt, d.maxRetries)];
        match d.llmClient
        case None => After(fixing, 1, 0, GiveUp(d.maxRetries, err))
        case Some(repair) =>
          match repair(code, err)
          case Err(_) => After(fixing, 1, 1, GiveUp(d.maxRetries, err))
          case Ok(fixed) => After(fixing, 1, 1, ExecLoop(d, decode, inputDir, outputDir, attempt + 1, fixed, err))
  }

  /**
   * `Execute`: the directory checks in the source's order, none of which runs anything or
   * publishes a snapshot, then the loop on the absolute paths.
   */
  function ExecuteSpec(d: Deps, host: Host, code: string, inputDir: string, outputDir: string): (t: Trace)
    ensures IsBlank(inputDir) ==> t == Trace(ExecReturn(None, Some(ErrEmptyInput)), [], 0, 0)
    ensures !IsBlank(inputDir) && IsBlank(outputDir) ==> t == Trace(ExecReturn(None, Some(ErrEmptyOutput)), [], 0, 0)
    ensures !IsBlank(inputDir) && !IsBlank(outputDir) && host.isNotExist(inputDir) ==>
      t == Trace(ExecReturn(None, Some(ErrMissingInput + inputDir)), [], 0, 0)
  {
    match Prepare(host, inputDir, outputDir)
    case Err(e) => Trace(ExecReturn(None, Some(e)), [], 0, 0)
    case Ok(dirs) => ExecLoop(d, host.decode, dirs.input, dirs.output, 0, code, "")
  }

  /** The absolute input and output directories the loop works on. */
  datatype Dirs = Dirs(input: string, output: string)

  /** The checks `Execute` makes before the loop, in order, and the directories they yield. */
  function Prepare(host: Host, inputDir: string, outputDir: string): (r: Result<Dirs>)
    ensures r.Ok? ==>
      && !IsBlank(inputDir) && !IsBlank(outputDir) && !host.isNotExist(inputDir)
      && host.abs(inputDir) == Ok(r.value.input) && host.abs(outputDir) == Ok(r.value.output)
      && host.mkdirAll(r.value.output) == Pass
  {
    if TrimSpace(inputDir) == "" then Err(ErrEmptyInput)
    else if TrimSpace(outputDir) == "" then Err(ErrEmptyOutput)
    else if host.isNotExist(inputDir) then Err(ErrMissingInput + inputDir)
    else
      match host.abs(inputDir)
      case Err(e) => Err(ErrInvalidInput + e)
      case Ok(absInput) =>
        match host.abs(outputDir)
        case Err(e) => Err(ErrInvalidOutput + e)
        case Ok(absOutput) =>
          match host.mkdirAll(absOutput)
          case Fail(e) => Err(ErrCreateOutput + e)
          case Pass => Ok(Dirs(absInput, absOutput))
  }

  /**
   * No snapshot a single run publishes is terminal, and a successful run reports the
   * output directory and no errors.
   */
  lemma RunShape(run: ScriptRun, decode: string -> Option<ProgressInfo>, outputDir: string)
    ensures var a := RunScriptSpec(run, decode, outputDir);
      && (forall i :: 0 <= i < |a.published| ==> !IsTerminal(a.published[i]))
      && (a.outcome.RunOk? ==> a.outcome.result.outputPath == outputDir && a.outcome.result.errors == [])
  {
  }

  /** The run and repair counts of a trace that had at most `budget` attempts and used at least one. */
  predicate CountsFit(budget: int, t: Trace) {
    1 <= t.runs <= budget && t.repairs <= t.runs <= t.repairs + 1
  }

  /**
   * The loop from attempt `attempt` runs the script at most once per remaining attempt
   * and at least once if any remains, and asks for a repair after every run but
   * possibly the last.
   */
  lemma {:induction false} LoopCounts(d: Deps, decode: string -> Option<ProgressInfo>, inputDir: string, outputDir: string,
                                      attempt: nat, code: string, lastErr: string)
    decreases d.maxRetries - attempt, 1
    ensures var t := ExecLoop(d, decode, inputDir, outputDir, attempt, code, lastErr);
      if attempt <= d.maxRetries then CountsFit(d.maxRetries + 1 - attempt, t) else t.runs == 0 && t.repairs == 0
  {
    if attempt <= d.maxRetries {
      AfterRunCounts(d, decode, inputDir, outputDir, attempt, code,
                     RunScriptSpec(d.envManager(code, ScriptArgs(inputDir, outputDir)), decode, outputDir));
    }
  }

  /** `LoopCounts` once the run of attempt `attempt` is known. */
  lemma {:induction false} AfterRunCounts(d: Deps, decode: string -> Option<ProgressInfo>, inputDir: string, outputDir: string,
                                          attempt: nat, code: string, a: Attempt)
    requires attempt <= d.maxRetries
    decreases d.maxRetries - attempt, 0
    ensures CountsFit(d.maxRetries + 1 - attempt, AfterRun(d, decode, inputDir, outputDir, attempt, code, a))
  {
    match a.outcome
    case RunOk(_) =>
    case RunErr(_, _) =>
      var err := FailureText(a.outcome);
      if attempt < d.maxRetries {
        match d.llmClient
        case None =>
        case Some(repair) =>
          match repair(code, err)
          case Err(_) =>
          case Ok(fixed) =>
            LoopCounts(d, decode, inputDir, outputDir, attempt + 1, fixed, err);
            AfterCountsFit(d.maxRetries - attempt, a.published + [FixingSnapshot(attempt, d.maxRetries)],
                           ExecLoop(d, decode, inputDir, outputDir, attempt + 1, fixed, err));
      }
  }

  /** One more run followed by a repair keeps the counts within one more attempt. */
  lemma AfterCountsFit(budget: int, ps: seq<BatchProgress>, t: Trace)
    requires CountsFit(budget, t)
    ensures CountsFit(budget + 1, After(ps, 1, 1, t))
  {
  }

  /** A trace that ends well: exactly its last snapshot is terminal, and it fits its outcome. */
  predicate EndsWell(maxRetries: int, outputDir: string, t: Trace) {
    && t.ret.result.Some?
    && (t.ret.error.None? ==>
          && t.ret.result.value.outputPath == outputDir && t.ret.result.value.errors == []
          && |t.published| > 0 && t.published[|t.published| - 1] == CompletedSnapshot(t.ret.result.value))
    && (t.ret.error.Some? ==> GaveUp(maxRetries, t))
    && |t.published| > 0 && IsTerminal(t.published[|t.published| - 1])
    && forall i :: 0 <= i < |t.published| - 1 ==> !IsTerminal(t.published[i])
  }

  /**
   * The loop always returns a result and ends on exactly one terminal snapshot, its
   * last: "completed" with the result (whose output path is the output directory and
   * which holds no errors) when no error is returned, and otherwise the give-up shape.
   */
  lemma {:induction false} LoopEnding(d: Deps, decode: string -> Option<ProgressInfo>, inputDir: string, outputDir: string,
                                      attempt: nat, code: string, lastErr: string)
    decreases d.maxRetries - attempt, 1
    ensures EndsWell(d.maxRetries, outputDir, ExecLoop(d, decode, inputDir, outputDir, attempt, code, lastErr))
  {
    if attempt <= d.maxRetries {
      var run := d.envManager(code, ScriptArgs(inputDir, outputDir));
      RunShape(run, decode, outputDir);
      AfterRunEnding(d, decode, inputDir, outputDir, attempt, code, RunScriptSpec(run, decode, outputDir));
    }
  }

  /** `LoopEnding` once the run of attempt `attempt` is known, provided that run published nothing terminal. */
  lemma {:induction false} AfterRunEnding(d: Deps, decode: string -> Option<ProgressInfo>, inputDir: string, outputDir: string,
                                          attempt: nat, code: string, a: Attempt)
    requires attempt <= d.maxRetries
    requires forall i :: 0 <= i < |a.published| ==> !IsTerminal(a.published[i])
    requires a.outcome.RunOk? ==> a.outcome.result.outputPath == outputDir && a.outcome.result.errors == []
    decreases d.maxRetries - attempt, 0
    ensures EndsWell(d.maxRetries, outputDir, AfterRun(d, decode, inputDir, outputDir, attempt, code, a))
  {
    match a.outcome
    case RunOk(result) =>
      EndsOnCompleted(d.maxRetries, a.published, result);
    case RunErr(_, _) =>
      var err := FailureText(a.outcome);
      GiveUpEndsWell(d.maxRetries, outputDir, err);
      if attempt >= d.maxRetries {
        AfterEndsWell(d.maxRetries, outputDir, a.published, 1, 0, GiveUp(d.maxRetries, err));
      } else {
        var fixing := a.published + [FixingSnapshot(attempt, d.maxRetries)];
        assert forall i :: 0 <= i < |fixing| ==> !IsTerminal(fixing[i]) by {
          assert forall i :: 0 <= i < |a.published| ==> fixing[i] == a.published[i];
        }
        match d.llmClient
        case None =>
          AfterEndsWell(d.maxRetries, outputDir, fixing, 1, 0, GiveUp(d.maxRetries, err));
        case Some(repair) =>
          match repair(code, err)
          case Err(_) =>
            AfterEndsWell(d.maxRetries, outputDir, fixing, 1, 1, GiveUp(d.maxRetries, err));
          case Ok(fixed) =>
            LoopEnding(d, decode, inputDir, outputDir, attempt + 1, fixed, err);
            AfterEndsWell(d.maxRetries, outputDir, fixing, 1, 1, ExecLoop(d, decode, inputDir, outputDir, attempt + 1, fixed, err));
    }
  }

  /** A successful run followed by "completed" ends well. */
  lemma EndsOnCompleted(maxRetries: int, ps: seq<BatchProgress>, result: BatchResult)
    requires forall i :: 0 <= i < |ps| ==> !IsTerminal(ps[i])
    requires result.errors == []
    ensures EndsWell(maxRetries, result.outputPath, Trace(ExecReturn(Some(result), None), ps + [CompletedSnapshot(result)], 1, 0))
  {
  }

  /** Giving up ends well. */
  lemma GiveUpEndsWell(maxRetries: int, outputDir: string, err: string)
    ensures EndsWell(maxRetries, outputDir, GiveUp(maxRetries, err))
  {
  }

  /** Snapshots published before a trace that ends well, none of them terminal, keep it ending well. */
  lemma AfterEndsWell(maxRetries: int, outputDir: string, ps: seq<BatchProgress>, runs: nat, repairs: nat, t: Trace)
    requires forall i :: 0 <= i < |ps| ==> !IsTerminal(ps[i])
    requires EndsWell(maxRetries, outputDir, t)
    ensures EndsWell(maxRetries, outputDir, After(ps, runs, repairs, t))
  {
    var q := After(ps, runs, repairs, t).published;
    assert forall i :: 0 <= i < |t.published| ==> q[|ps| + i] == t.published[i];
  }


  /**
   * Whatever happens before the loop: a refusal runs nothing and publishes nothing;
   * otherwise the script runs at most `maxRetries + 1` times, at most one repair is asked
   * per run, and the last snapshot is terminal; when it gives up, the error cites the
   * budget.
   */
  lemma ExecuteBounds(d: Deps, host: Host, code: string, inputDir: string, outputDir: string)
    ensures var t := ExecuteSpec(d, host, code, inputDir, outputDir);
      && (t.ret.result.None? ==> t.ret.error.Some? && t.published == [] && t.runs == 0)
      && (t.ret.result.Some? && d.maxRetries >= 0 ==> t.runs >= 1)
      && t.runs <= (if d.maxRetries >= 0 then d.maxRetries + 1 else 0)
      && t.repairs <= t.runs
      && (t.ret.result.Some? ==> |t.published| > 0 && IsTerminal(t.published[|t.published| - 1]))
      && (t.ret.result.Some? && t.ret.error.Some? ==> GaveUp(d.maxRetries, t))
  {
    match Prepare(host, inputDir, outputDir)
    case Err(_) =>
    case Ok(dirs) =>
      LoopCounts(d, host.decode, dirs.input, dirs.output, 0, code, "");
      LoopEnding(d, host.decode, dirs.input, dirs.output, 0, code, "");
  }

  /**
   * A stage of the loop: the candidate about to run, the error text of the run before it,
   * and the snapshots published so far.
   */
  datatype Stage = Stage(candidate: string, lastErr: string, published: seq<BatchProgress>)

  /** The run of attempt `attempt` at stage `st`. */
  function RunAt(d: Deps, decode: string -> Option<ProgressInfo>, inputDir: string, outputDir: string, st: Stage): Attempt {
    RunScriptSpec(d.envManager(st.candidate, ScriptArgs(inputDir, outputDir)), decode, outputDir)
  }

  /**
   * The stage after attempt `attempt` at stage `st`: its run failed, a retry remains, a
   * repairer is configured and it repaired the candidate; `None` when the loop stops there.
   */
  function Advance(d: Deps, decode: string -> Option<ProgressInfo>, inputDir: string, outputDir: string,
                   attempt: nat, st: Stage): (r: Option<Stage>)
    ensures r.Some? ==> attempt < d.maxRetries && RunAt(d, decode, inputDir, outputDir, st).outcome.RunErr?
  {
    var a := RunAt(d, decode, inputDir, outputDir, st);
    if a.outcome.RunOk? || attempt >= d.maxRetries || d.llmClient.None? then None
    else
      var err := FailureText(a.outcome);
      match d.llmClient.value(st.candidate, err)
      case Err(_) => None
      case Ok(fixed) => Some(Stage(fixed, err, st.published + (a.published + [FixingSnapshot(attempt, d.maxRetries)])))
  }

  /** The stage reached after `k` failed and repaired runs of `code`, or `None` if the loop stops earlier. */
  function Reach(d: Deps, decode: string -> Option<ProgressInfo>, inputDir: string, outputDir: string,
                 code: string, k: nat): Option<Stage>
  {
    if k == 0 then Some(Stage(code, "", []))
    else
      match Reach(d, decode, inputDir, outputDir, code, k - 1)
      case None => None
      case Some(st) => Advance(d, decode, inputDir, outputDir, k - 1, st)
  }

  /** Moving to the next stage leaves the rest of the loop unchanged. */
  lemma AdvanceStep(d: Deps, decode: string -> Option<ProgressInfo>, inputDir: string, outputDir: string,
                    attempt: nat, st: Stage, nx: Stage)
    requires Advance(d, decode, inputDir, outputDir, attempt, st) == Some(nx)
    ensures After(st.published, attempt, attempt, ExecLoop(d, decode, inputDir, outputDir, attempt, st.candidate, st.lastErr))
         == After(nx.published, attempt + 1, attempt + 1, ExecLoop(d, decode, inputDir, outputDir, attempt + 1, nx.candidate, nx.lastErr))
  {
    var a := RunAt(d, decode, inputDir, outputDir, st);
    var t := ExecLoop(d, decode, inputDir, outputDir, attempt + 1, nx.candidate, nx.lastErr);
    SeqAssoc(st.published, a.published + [FixingSnapshot(attempt, d.maxRetries)], t.published);
  }

  /** From a reached stage on, the loop from the start is that stage's prefix followed by the loop from there. */
  lemma {:induction false} ReachContinues(d: Deps, decode: string -> Option<ProgressInfo>, inputDir: string, outputDir: string,
                                          code: string, k: nat, st: Stage)
    requires Reach(d, decode, inputDir, outputDir, code, k) == Some(st)
    ensures ExecLoop(d, decode, inputDir, outputDir, 0, code, "")
         == After(st.published, k, k, ExecLoop(d, decode, inputDir, outputDir, k, st.candidate, st.lastErr))
  {
    if k == 0 {
      var t := ExecLoop(d, decode, inputDir, outputDir, 0, code, "");
      assert [] + t.published == t.published;
    } else {
      var prev := Reach(d, decode, inputDir, outputDir, code, k - 1).value;
      ReachContinues(d, decode, inputDir, outputDir, code, k - 1, prev);
      AdvanceStep(d, decode, inputDir, outputDir, k - 1, prev, st);
    }
  }

  /** Every run before a reached stage failed and was repaired. */
  lemma {:induction false} ReachEarlierFailed(d: Deps, decode: string -> Option<ProgressInfo>, inputDir: string, outputDir: string,
                                              code: string, k: nat, i: nat)
    requires Reach(d, decode, inputDir, outputDir, code, k).Some? && i < k
    ensures Reach(d, decode, inputDir, outputDir, code, i).Some?
    ensures RunAt(d, decode, inputDir, outputDir, Reach(d, decode, inputDir, outputDir, code, i).value).outcome.RunErr?
    ensures i < d.maxRetries
  {
    if i < k - 1 {
      ReachEarlierFailed(d, decode, inputDir, outputDir, code, k - 1, i);
    }
  }

  /**
   * The first successful run returns at once: if run `k` is the first to succeed, the
   * loop returns its result with no error after `k + 1` runs and `k` repairs, and its
   * last snapshot is "completed" with that result.
   */
  lemma FirstSuccessAt(d: Deps, decode: string -> Option<ProgressInfo>, inputDir: string, outputDir: string,
                       code: string, k: nat, st: Stage, res: BatchResult)
    requires Reach(d, decode, inputDir, outputDir, code, k) == Some(st) && k <= d.maxRetries
    requires RunAt(d, decode, inputDir, outputDir, st).outcome == RunOk(res)
    ensures var t := ExecLoop(d, decode, inputDir, outputDir, 0, code, "");
      && t.ret == ExecReturn(Some(res), None) && t.runs == k + 1 && t.repairs == k
      && t.published == st.published + (RunAt(d, decode, inputDir, outputDir, st).published + [CompletedSnapshot(res)])
  {
    ReachContinues(d, decode, inputDir, outputDir, code, k, st);
  }

  /**
   * The loop gives up where it stops on a failed run: the error cites the budget and that
   * run's failure text, which is also the one error of the result and the text of the
   * closing "failed" snapshot; a "fixing" snapshot precedes it when a retry remained.
   */
  lemma GiveUpAt(d: Deps, decode: string -> Option<ProgressInfo>, inputDir: string, outputDir: string,
                 code: string, k: nat, st: Stage)
    requires Reach(d, decode, inputDir, outputDir, code, k) == Some(st) && k <= d.maxRetries
    requires RunAt(d, decode, inputDir, outputDir, st).outcome.RunErr?
    requires Advance(d, decode, inputDir, outputDir, k, st).None?
    ensures var t := ExecLoop(d, decode, inputDir, outputDir, 0, code, "");
      var a := RunAt(d, decode, inputDir, outputDir, st);
      var err := FailureText(a.outcome);
      && t.ret == GiveUp(d.maxRetries, err).ret && t.runs == k + 1
      && t.repairs == (if k < d.maxRetries && d.llmClient.Some? then k + 1 else k)
      && t.published == st.published + (a.published + (if k < d.maxRetries then [FixingSnapshot(k, d.maxRetries)] else [])
                                       + [FailedSnapshot(err)])
  {
    ReachContinues(d, decode, inputDir, outputDir, code, k, st);
    var a := RunAt(d, decode, inputDir, outputDir, st);
    if k < d.maxRetries {
      assert a.published + [FixingSnapshot(k, d.maxRetries)] + [FailedSnapshot(FailureText(a.outcome))]
          == a.published + ([FixingSnapshot(k, d.maxRetries)] + [FailedSnapshot(FailureText(a.outcome))]);
    } else {
      assert a.published + [] == a.published;
    }
  }

  /** Stage `k` is reached within the budget and the loop stops there. */
  predicate StopsAt(d: Deps, decode: string -> Option<ProgressInfo>, inputDir: string, outputDir: string, code: string, k: nat) {
    && k <= d.maxRetries
    && Reach(d, decode, inputDir, outputDir, code, k).Some?
    && Advance(d, decode, inputDir, outputDir, k, Reach(d, decode, inputDir, outputDir, code, k).value).None?
  }

  /** The loop from a reached stage stops at a later reached stage, after as many runs as it makes. */
  lemma {:induction false} StopsAtReach(d: Deps, decode: string -> Option<ProgressInfo>, inputDir: string, outputDir: string,
                                        code: string, j: nat, st: Stage)
    requires Reach(d, decode, inputDir, outputDir, code, j) == Some(st) && j <= d.maxRetries
    decreases d.maxRetries - j
    ensures var n := ExecLoop(d, decode, inputDir, outputDir, j, st.candidate, st.lastErr).runs;
      n >= 1 && StopsAt(d, decode, inputDir, outputDir, code, j + n - 1)
  {
    match Advance(d, decode, inputDir, outputDir, j, st)
    case None =>
      StopRunsOnce(d, decode, inputDir, outputDir, j, st);
    case Some(nx) =>
      AdvanceRuns(d, decode, inputDir, outputDir, j, st, nx);
      ReachNext(d, decode, inputDir, outputDir, code, j, st, nx);
      StopsAtReach(d, decode, inputDir, outputDir, code, j + 1, nx);
  }

  /** Where the loop stops, it runs the script once more and no further. */
  lemma StopRunsOnce(d: Deps, decode: string -> Option<ProgressInfo>, inputDir: string, outputDir: string,
                     attempt: nat, st: Stage)
    requires attempt <= d.maxRetries && Advance(d, decode, inputDir, outputDir, attempt, st).None?
    ensures ExecLoop(d, decode, inputDir, outputDir, attempt, st.candidate, st.lastErr).runs == 1
  {
  }

  /** Where the loop goes on, it makes one run more than from the next stage. */
  lemma AdvanceRuns(d: Deps, decode: string -> Option<ProgressInfo>, inputDir: string, outputDir: string,
                    attempt: nat, st: Stage, nx: Stage)
    requires Advance(d, decode, inputDir, outputDir, attempt, st) == Some(nx)
    ensures attempt + 1 <= d.maxRetries
    ensures ExecLoop(d, decode, inputDir, outputDir, attempt, st.candidate, st.lastErr).runs
         == ExecLoop(d, decode, inputDir, outputDir, attempt + 1, nx.candidate, nx.lastErr).runs + 1
  {
    AdvanceStep(d, decode, inputDir, outputDir, attempt, st, nx);
  }

  /** The stage after a reached stage is reached. */
  lemma ReachNext(d: Deps, decode: string -> Option<ProgressInfo>, inputDir: string, outputDir: string,
                  code: string, k: nat, st: Stage, nx: Stage)
    requires Reach(d, decode, inputDir, outputDir, code, k) == Some(st)
    requires Advance(d, decode, inputDir, outputDir, k, st) == Some(nx)
    ensures Reach(d, decode, inputDir, outputDir, code, k + 1) == Some(nx)
  {
  }

  /**
   * How the loop ends, from the start: at the stage of its last run, which is reached and
   * where the loop stops. No error is returned exactly when that run succeeded, and then
   * the result is that run's; otherwise the result's one error is the run's failure text.
   */
  lemma LoopOutcome(d: Deps, decode: string -> Option<ProgressInfo>, inputDir: string, outputDir: string, code: string)
    requires d.maxRetries >= 0
    ensures EndsOnLastRun(d, decode, inputDir, outputDir, code, ExecLoop(d, decode, inputDir, outputDir, 0, code, ""))
  {
    var st0 := Stage(code, "", []);
    StopsAtReach(d, decode, inputDir, outputDir, code, 0, st0);
    var t := ExecLoop(d, decode, inputDir, outputDir, 0, code, "");
    var k := t.runs - 1;
    var st := Reach(d, decode, inputDir, outputDir, code, k).value;
    var a := RunAt(d, decode, inputDir, outputDir, st);
    match a.outcome
    case RunOk(res) =>
      FirstSuccessAt(d, decode, inputDir, outputDir, code, k, st, res);
      assert ReturnsRun(d.maxRetries, t.ret, a);
      assert EndsOnLastRun(d, decode, inputDir, outputDir, code, t);
    case RunErr(_, _) =>
      GiveUpAt(d, decode, inputDir, outputDir, code, k, st);
      assert ReturnsRun(d.maxRetries, t.ret, a);
      assert EndsOnLastRun(d, decode, inputDir, outputDir, code, t);
  }

  /**
   * Trace `t` of the loop on `code` made between one and `maxRetries + 1` runs, its last
   * run is at a reached stage, and it returns what that run produced.
   */
  predicate EndsOnLastRun(d: Deps, decode: string -> Option<ProgressInfo>, inputDir: string, outputDir: string,
                          code: string, t: Trace) {
    && 1 <= t.runs <= d.maxRetries + 1
    && Reach(d, decode, inputDir, outputDir, code, t.runs - 1).Some?
    && ReturnsRun(d.maxRetries, t.ret, RunAt(d, decode, inputDir, outputDir, Reach(d, decode, inputDir, outputDir, code, t.runs - 1).value))
  }

  /**
   * `Execute` returns what run `a` produced: no error exactly when it succeeded, and then
   * its result; otherwise the give-up values for its failure text.
   */
  predicate ReturnsRun(maxRetries: int, ret: ExecReturn, a: Attempt) {
    && (ret.error.None? <==> a.outcome.RunOk?)
    && (a.outcome.RunOk? ==> ret.result == Some(a.outcome.result))
    && (a.outcome.RunErr? ==> ret == GiveUp(maxRetries, FailureText(a.outcome)).ret)
  }

  /**
   * Without a repairer the script runs once: a failure with a retry left publishes
   * "fixing" and then "failed", and cites the run's failure text.
   */
  lemma NilRepairerRunsOnce(d: Deps, decode: string -> Option<ProgressInfo>, inputDir: string, outputDir: string, code: string)
    requires d.llmClient.None? && d.maxRetries >= 0
    ensures var t := ExecLoop(d, decode, inputDir, outputDir, 0, code, "");
      var a := RunAt(d, decode, inputDir, outputDir, Stage(code, "", []));
      && t.runs == 1 && t.repairs == 0
      && (a.outcome.RunErr? ==>
            && t.ret == GiveUp(d.maxRetries, FailureText(a.outcome)).ret
            && t.published == a.published + (if d.maxRetries > 0 then [FixingSnapshot(0, d.maxRetries)] else [])
                                          + [FailedSnapshot(FailureText(a.outcome))])
  {
    var st := Stage(code, "", []);
    assert Reach(d, decode, inputDir, outputDir, code, 0) == Some(st);
    match RunAt(d, decode, inputDir, outputDir, st).outcome
    case RunOk(res) => FirstSuccessAt(d, decode, inputDir, outputDir, code, 0, st, res);
    case RunErr(_, _) =>
      GiveUpAt(d, decode, inputDir, outputDir, code, 0, st);
      assert [] + (RunAt(d, decode, inputDir, outputDir, st).published) == RunAt(d, decode, inputDir, outputDir, st).published;
  }

  /** Progress records of concatenated output are the records of each part, in order. */
  lemma {:induction false} RecordsAppend(decode: string -> Option<ProgressInfo>, a: seq<string>, b: seq<string>)
    ensures Records(decode, a + b) == Records(decode, a) + Records(decode, b)
    decreases |b|
  {
    if b == [] {
      assert a + b == a;
    } else {
      var b' := b[..|b| - 1];
      var line := TrimSpace(b[|b| - 1]);
      var last := if line == "" then [] else match decode(line) case None => [] case Some(info) => [info];
      assert (a + b)[..|a + b| - 1] == a + b';
      assert (a + b)[|a + b| - 1] == b[|b| - 1];
      RecordsAppend(decode, a, b');
      SeqAssoc(Records(decode, a), Records(decode, b'), last);
    }
  }

  /** A line that trims to nothing or does not decode. */
  predicate Noise(decode: string -> Option<ProgressInfo>, line: string) {
    TrimSpace(line) == "" || decode(TrimSpace(line)).None?
  }

  /** Output made only of noise holds no records. */
  lemma {:induction false} NoiseHasNoRecords(decode: string -> Option<ProgressInfo>, lines: seq<string>)
    requires forall i :: 0 <= i < |lines| ==> Noise(decode, lines[i])
    ensures Records(decode, lines) == []
  {
    if lines != [] {
      NoiseHasNoRecords(decode, lines[..|lines| - 1]);
    }
  }

  /** Blank and undecodable lines anywhere in the output change neither the counts nor the snapshots. */
  lemma NoiseIgnored(decode: string -> Option<ProgressInfo>, pre: seq<string>, noise: seq<string>, post: seq<string>)
    requires forall i :: 0 <= i < |noise| ==> Noise(decode, noise[i])
    ensures Records(decode, pre + noise + post) == Records(decode, pre + post)
  {
    NoiseHasNoRecords(decode, noise);
    RecordsAppend(decode, pre + noise, post);
    RecordsAppend(decode, pre, noise);
    RecordsAppend(decode, pre, post);
    assert Records(decode, pre + noise) == Records(decode, pre);
  }

  /**
   * The script reports cumulative counts, so the last record wins: whatever came
   * before it, the result holds that record's total and current, and no failure count.
   */
  lemma LastRecordWins(decode: string -> Option<ProgressInfo>, acc: BatchResult,
                       pre: seq<string>, line: string, info: ProgressInfo, post: seq<string>)
    requires TrimSpace(line) != "" && decode(TrimSpace(line)) == Some(info)
    requires forall i :: 0 <= i < |post| ==> Noise(decode, post[i])
    ensures var r := LastRecordCounts(acc, Records(decode, pre + [line] + post));
      r.totalFiles == info.total && r.succeeded == info.current && r.failed == acc.failed
  {
    var xs := pre + [line];
    NoiseHasNoRecords(decode, post);
    RecordsAppend(decode, xs, post);
    assert xs[..|xs| - 1] == pre && xs[|xs| - 1] == line;
    var recs := Records(decode, xs);
    assert recs == Records(decode, pre) + [info];
    assert recs + [] == recs;
  }

  /** Every run of every candidate fails. */
  ghost predicate AlwaysFails(d: Deps, decode: string -> Option<ProgressInfo>, inputDir: string, outputDir: string) {
    forall c :: RunScriptSpec(d.envManager(c, ScriptArgs(inputDir, outputDir)), decode, outputDir).outcome.RunErr?
  }

  /**
   * A script that never succeeds with a repairer that always answers uses the whole
   * budget: `maxRetries + 1` runs, `maxRetries` repairs, and a failure.
   */
  lemma {:induction false} FailuresExhaustBudget(d: Deps, decode: string -> Option<ProgressInfo>, inputDir: string, outputDir: string,
                                                 attempt: nat, code: string, lastErr: string)
    requires AlwaysFails(d, decode, inputDir, outputDir)
    requires d.llmClient.Some? && forall c, e :: d.llmClient.value(c, e).Ok?
    requires attempt <= d.maxRetries
    decreases d.maxRetries - attempt
    ensures var t := ExecLoop(d, decode, inputDir, outputDir, attempt, code, lastErr);
      t.runs == d.maxRetries + 1 - attempt && t.repairs == d.maxRetries - attempt && t.ret.error.Some?
  {
    var a := RunScriptSpec(d.envManager(code, ScriptArgs(inputDir, outputDir)), decode, outputDir);
    assert a.outcome.RunErr?;
    if attempt < d.maxRetries {
      var err := FailureText(a.outcome);
      var fixed := d.llmClient.value(code, err);
      assert fixed.Ok?;
      FailuresExhaustBudget(d, decode, inputDir, outputDir, attempt + 1, fixed.value, err);
    }
  }

  /**
   * A script that never succeeds with a repairer that always fails stops after the first
   * repair request instead of exhausting the budget, still citing the budget in its error.
   */
  lemma RepairFailureStopsEarly(d: Deps, decode: string -> Option<ProgressInfo>, inputDir: string, outputDir: string, code: string)
    requires AlwaysFails(d, decode, inputDir, outputDir)
    requires d.llmClient.Some? && forall c, e :: d.llmClient.value(c, e).Err?
    requires d.maxRetries >= 1
    ensures var t := ExecLoop(d, decode, inputDir, outputDir, 0, code, "");
      t.runs == 1 && t.repairs == 1 && GaveUp(d.maxRetries, t)
      && t.ret.error == Some(FailureError(d.maxRetries, t.ret.result.value.errors[0]))
  {
    var a := RunScriptSpec(d.envManager(code, ScriptArgs(inputDir, outputDir)), decode, outputDir);
    assert a.outcome.RunErr?;
    assert d.llmClient.value(code, FailureText(a.outcome)).Err?;
  }

  /**
   * A first run that exits 0 without printing a progress record (an empty input
   * directory) succeeds with zero counts, without any repair, after one "starting" and
   * one "completed" snapshot.
   */
  lemma QuietSuccess(d: Deps, decode: string -> Option<ProgressInfo>, inputDir: string, outputDir: string,
                     code: string, lines: seq<string>, stderr: string)
    requires d.maxRetries >= 0
    requires d.envManager(code, ScriptArgs(inputDir, outputDir)) == Exited(lines, stderr, None)
    requires forall i :: 0 <= i < |lines| ==> Noise(decode, lines[i])
    ensures var t := ExecLoop(d, decode, inputDir, outputDir, 0, code, "");
      var res := BatchResult(0, 0, 0, outputDir, []);
      t.ret == ExecReturn(Some(res), None) && t.runs == 1 && t.repairs == 0
      && t.published == [StartingSnapshot, CompletedSnapshot(res)]
  {
    NoiseHasNoRecords(decode, lines);
  }

  /** Concatenation regroups. */
  lemma SeqAssoc<T>(a: seq<T>, b: seq<T>, c: seq<T>)
    ensures (a + b) + c == a + (b + c)
  {
  }

  /** The executor: its collaborators, and the progress cell, replaced wholesale by each publication. */
  class BatchExecutor {
    const deps: Deps
    var progress: BatchProgress
    /** Every snapshot published so far, oldest first; the cell holds the newest. */
    ghost var history: seq<BatchProgress>

    ghost predicate Valid()
      reads this
    {
      |history| > 0 && progress == history[|history| - 1]
    }

    /** `NewBatchExecutor`: the cell starts "idle". */
    constructor (d: Deps)
      ensures Valid() && deps == d
      ensures progress == IdleProgress && history == [IdleProgress]
    {
      deps := d;
      progress := IdleProgress;
      history := [IdleProgress];
    }

    /** `GetProgress`: the current snapshot, as a value the caller owns. */
    method GetProgress() returns (p: BatchProgress)
      requires Valid()
      ensures p == progress && p == history[|history| - 1]
    {
      p := progress;
    }

    /** `setProgress`: replaces the whole snapshot. */
    method SetProgress(p: BatchProgress)
      requires Valid()
      modifies this
      ensures Valid()
      ensures progress == p && history == old(history) + [p]
    {
      progress := p;
      history := history + [p];
    }

    /** `readStdout`: each record publishes a "running" snapshot and overwrites the two counts. */
    method ReadStdout(lines: seq<string>, acc: BatchResult, decode: string -> Option<ProgressInfo>) returns (result: BatchResult)
      requires Valid()
      modifies this
      ensures Valid()
      ensures result == LastRecordCounts(acc, Records(decode, lines))
      ensures history == old(history) + RunningSnapshots(Records(decode, lines))
    {
      result := acc;
      for i := 0 to |lines|
        invariant Valid()
        invariant result == LastRecordCounts(acc, Records(decode, lines[..i]))
        invariant history == old(history) + RunningSnapshots(Records(decode, lines[..i]))
      {
        ghost var recs := Records(decode, lines[..i]);
        RecordsStep(decode, lines, i);
        var line := TrimSpace(lines[i]);
        if line == "" {
          assert Records(decode, lines[..i + 1]) == recs;
          continue;
        }
        match decode(line)
        case None =>
          assert Records(decode, lines[..i + 1]) == recs;
        case Some(info) =>
          assert Records(decode, lines[..i + 1]) == recs + [info];
          RunningSnapshotsSnoc(recs, info);
          SetProgress(RunningSnapshot(info));
          SeqAssoc(old(history), RunningSnapshots(recs), [RunningSnapshot(info)]);
          result := result.(totalFiles := info.total, succeeded := info.current);
      }
      assert lines[..|lines|] == lines;
    }

    /** `runScript`: one run of the candidate, with its snapshots. */
    method RunScript(code: string, inputDir: string, outputDir: string, decode: string -> Option<ProgressInfo>) returns (o: RunOutcome)
      requires Valid()
      modifies this
      ensures Valid()
      ensures var a := RunScriptSpec(deps.envManager(code, ScriptArgs(inputDir, outputDir)), decode, outputDir);
        o == a.outcome && history == old(history) + a.published
    {
      var run := deps.envManager(code, ScriptArgs(inputDir, outputDir));
      match run
      case TempDirFailed(e) =>
        return RunErr("", ErrTempDir + e);
      case WriteFailed(e) =>
        return RunErr("", ErrTempScript + e);
      case StartFailed(e) =>
        SetProgress(StartingSnapshot);
        return RunErr("", ErrStart + e);
      case Exited(lines, stderr, waitError) =>
        SetProgress(StartingSnapshot);
        var result := ReadStdout(lines, BatchResult(0, 0, 0, outputDir, []), decode);
        SeqAssoc(old(history), [StartingSnapshot], RunningSnapshots(Records(decode, lines)));
        var stderrOutput := TrimSpace(stderr);
        if waitError.Some? {
          return RunErr(stderrOutput, waitError.value);
        }
        return RunOk(result);
    }

    /**
     * `Execute`: returns what `ExecuteSpec` says and publishes exactly its snapshots, so
     * the cell ends on the terminal one whenever the script was run.
     */
    method Execute(code: string, inputDir: string, outputDir: string, host: Host) returns (r: ExecReturn)
      requires Valid()
      modifies this
      ensures Valid()
      ensures r == ExecuteSpec(deps, host, code, inputDir, outputDir).ret
      ensures history == old(history) + ExecuteSpec(deps, host, code, inputDir, outputDir).published
    {
      if TrimSpace(inputDir) == "" {
        return ExecReturn(None, Some(ErrEmptyInput));
      }
      if TrimSpace(outputDir) == "" {
        return ExecReturn(None, Some(ErrEmptyOutput));
      }
      if host.isNotExist(inputDir) {
        return ExecReturn(None, Some(ErrMissingInput + inputDir));
      }
      var absInput := host.abs(inputDir);
      if absInput.Err? {
        return ExecReturn(None, Some(ErrInvalidInput + absInput.error));
      }
      var absOutput := host.abs(outputDir);
      if absOutput.Err? {
        return ExecReturn(None, Some(ErrInvalidOutput + absOutput.error));
      }
      var made := host.mkdirAll(absOutput.value);
      if made.Fail? {
        return ExecReturn(None, Some(ErrCreateOutput + made.error));
      }
      r := RetryLoop(code, absInput.value, absOutput.value, host.decode);
    }

    /**
     * The attempt loop of `Execute`: run, and on failure publish "fixing" and ask for a
     * repair while retries remain; give up with a "failed" snapshot.
     */
    method RetryLoop(code: string, inputDir: string, outputDir: string, decode: string -> Option<ProgressInfo>) returns (r: ExecReturn)
      requires Valid()
      modifies this
      ensures Valid()
      ensures r == ExecLoop(deps, decode, inputDir, outputDir, 0, code, "").ret
      ensures history == old(history) + ExecLoop(deps, decode, inputDir, outputDir, 0, code, "").published
    {
      ghost var whole := ExecLoop(deps, decode, inputDir, outputDir, 0, code, "");

      var currentCode := code;
      var lastErr := "";
      var attempt: nat := 0;
      while attempt <= deps.maxRetries
        invariant Valid()
        invariant ExecLoop(deps, decode, inputDir, outputDir, attempt, currentCode, lastErr).ret == whole.ret
        invariant history + ExecLoop(deps, decode, inputDir, outputDir, attempt, currentCode, lastErr).published
                  == old(history) + whole.published
        decreases deps.maxRetries - attempt
      {
        ghost var h := history;
        var done, ret, fixed, err, ps := Attempt(currentCode, inputDir, outputDir, decode, attempt, lastErr);
        if done {
          return ret;
        }
        SeqAssoc(h, ps, ExecLoop(deps, decode, inputDir, outputDir, attempt + 1, fixed, err).published);
        currentCode := fixed;
        lastErr := err;
        attempt := attempt + 1;
      }
      SetProgress(FailedSnapshot(lastErr));
      return ExecReturn(Some(BatchResult(0, 0, 0, "", [lastErr])), Some(FailureError(deps.maxRetries, lastErr)));
    }

    /**
     * One pass of the attempt loop: run `code`; on success publish "completed"; on failure
     * give up when no retry remains, no client is configured or the repair fails, and
     * otherwise publish "fixing" and hand back the repaired code and the failure text.
     * `done` says whether the loop ends here; `ps` is what this pass published.
     */
    method Attempt(code: string, inputDir: string, outputDir: string, decode: string -> Option<ProgressInfo>,
                   attempt: nat, lastErr: string)
      returns (done: bool, r: ExecReturn, fixed: string, err: string, ghost ps: seq<BatchProgress>)
      requires Valid() && attempt <= deps.maxRetries
      modifies this
      ensures Valid()
      ensures var t := ExecLoop(deps, decode, inputDir, outputDir, attempt, code, lastErr);
        if done then r == t.ret && history == old(history) + t.published
        else
          && attempt < deps.maxRetries && history == old(history) + ps
          && t == After(ps, 1, 1, ExecLoop(deps, decode, inputDir, outputDir, attempt + 1, fixed, err))
    {
      ghost var h := history;
      ghost var a := RunScriptSpec(deps.envManager(code, ScriptArgs(inputDir, outputDir)), decode, outputDir);
      fixed, err, ps := code, lastErr, [];
      var outcome := RunScript(code, inputDir, outputDir, decode);
      assert outcome == a.outcome && history == h + a.published;
      if outcome.RunOk? {
        SetProgress(CompletedSnapshot(outcome.result));
        SeqAssoc(h, a.published, [CompletedSnapshot(outcome.result)]);
        return true, ExecReturn(Some(outcome.result), None), fixed, err, ps;
      }
      err := if outcome.stderrOutput != "" then outcome.stderrOutput else outcome.error;
      done, r, fixed, ps := AfterFailure(code, inputDir, outputDir, decode, attempt, err, a, h);
    }

    /**
     * The rest of a pass once the run `a` has failed with `err`: give up with "failed"
     * when no retry remains; otherwise publish "fixing" and ask for a repair, giving up
     * when no client is configured or the repair fails. `h` is the history before the run.
     */
    method AfterFailure(code: string, inputDir: string, outputDir: string, decode: string -> Option<ProgressInfo>,
                        attempt: nat, err: string, ghost a: Attempt, ghost h: seq<BatchProgress>)
      returns (done: bool, r: ExecReturn, fixed: string, ghost ps: seq<BatchProgress>)
      requires Valid() && attempt <= deps.maxRetries
      requires a.outcome.RunErr? && err == FailureText(a.outcome) && history == h + a.published
      modifies this
      ensures Valid()
      ensures var t := AfterRun(deps, decode, inputDir, outputDir, attempt, code, a);
        if done then r == t.ret && history == h + t.published
        else
          && attempt < deps.maxRetries && history == h + ps
          && t == After(ps, 1, 1, ExecLoop(deps, decode, inputDir, outputDir, attempt + 1, fixed, err))
    {
      fixed, ps := code, [];
      r := ExecReturn(Some(BatchResult(0, 0, 0, "", [err])), Some(FailureError(deps.maxRetries, err)));
      if attempt >= deps.maxRetries {
        SetProgress(FailedSnapshot(err));
        SeqAssoc(h, a.published, [FailedSnapshot(err)]);
        return true, r, fixed, ps;
      }
      ps := a.published + [FixingSnapshot(attempt, deps.maxRetries)];
      SetProgress(FixingSnapshot(attempt, deps.maxRetries));
      SeqAssoc(h, a.published, [FixingSnapshot(attempt, deps.maxRetries)]);
      if deps.llmClient.None? {
        SetProgress(FailedSnapshot(err));
        SeqAssoc(h, ps, [FailedSnapshot(err)]);
        return true, r, fixed, ps;
      }
      var repaired := deps.llmClient.value(code, err);
      if repaired.Err? {
        SetProgress(FailedSnapshot(err));
        SeqAssoc(h, ps, [FailedSnapshot(err)]);
        return true, r, fixed, ps;
      }
      fixed := repaired.value;
      done := false;
    }
  }
}
