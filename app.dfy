/**
 * The application controller (`app.go`): the guards and status mapping of sample
 * analysis and batch runs, the wiring of the chat-model components, the wizard flag,
 * and the adapter through which the batch executor asks the model for runtime repairs.
 *
 * The controller is modelled after start-up: its environment manager exists. The
 * settings file is an oracle (its load result or save outcome is a parameter), and the
 * goroutine that runs a batch is run to completion in place.
 */
module App {
  import opened Wrappers
  import opened Text
  import opened Model
  import opened LlmClient
  import opened SampleAnalysis
  import opened CodeValidation
  import Executor
  import opened ProjectStore

  const ErrNotConfigured := "LLM is not configured. Please configure LLM settings first"
  const ErrNoProjectName := "请输入项目名称"
  const ErrAnalysis := "sample analysis failed: "
  const ErrValidation := "code validation failed: "
  const ErrNoManager := "project manager is not initialized"
  const ErrEnvNotReady := "Python 环境尚未就绪，请等待初始化完成"
  const ErrGetProject := "failed to get project: "
  const ErrEmptyCode := "项目代码为空，无法执行"
  const ErrCreateClient := "failed to create LLM client: "
  const ErrSaveSettings := "failed to save settings: "
  const ErrReinit := "failed to reinitialize LLM components: "

  /** The retry budget given to both the validator and the executor. */
  const ComponentRetries := 3

  // ---------------------------------------------------------------------------------
  // Runtime repair through the chat model

  /**
   * The code in a repair reply: the trimmed interior of the first complete Python block,
   * else of the first complete block of any kind, else the reply exactly as received.
   */
  function ExtractRepairCode(response: string): string {
    match ExtractFencedBlock(response, PythonFence)
    case Some(code) => code
    case None =>
      match ExtractFencedBlock(response, Fence)
      case Some(code) => code
      case None => response
  }

  /**
   * Where a block exists the repair extraction and the analysis extraction agree; where
   * none does, the repair extraction hands back the reply untouched instead of the
   * analysis fallback.
   */
  lemma RepairExtractionAgrees(response: string)
    ensures ExtractFencedBlock(response, Fence).Some? ==> ExtractRepairCode(response) == ExtractCode(response)
    ensures ExtractFencedBlock(response, Fence).None? ==> ExtractRepairCode(response) == response
  {
    PythonFenceImpliesFence(response);
  }

  /** A reply with no fence at all is used as the repaired code, untrimmed. */
  lemma UnfencedReplyKept(response: string)
    requires !Contains(response, Fence)
    ensures ExtractRepairCode(response) == response
  {
    RepairExtractionAgrees(response);
  }

  /** Prose without a fence and without Python tokens is kept by repair but refused by analysis. */
  lemma RepairKeepsProse(response: string)
    requires !Contains(response, Fence) && !IsBlank(response)
    requires !LooksLikePython(TrimSpace(response))
    ensures ExtractRepairCode(response) == response != ""
    ensures ExtractCode(response) == ""
  {
    UnfencedReplyKept(response);
    ExtractCodeShape(response);
  }

  /** A well-formed Python block in a repair reply yields its trimmed interior. */
  lemma RepairFromPythonBlock(pre: string, body: string, post: string)
    requires !Contains(pre + "```pytho", PythonFence)
    requires !Contains(body + "``", Fence)
    ensures ExtractRepairCode(pre + PythonFence + "\n" + body + Fence + post) == TrimSpace(body)
  {
    PythonBlockFound(pre, body, post);
  }

  const RuntimeRepairSystemPrompt :=
    "You are an expert Python developer. Fix the runtime error in the given Python code. "
    + "Return the complete fixed Python code inside a single ```python code block. "
    + "Do not explain the changes, just return the corrected code."

  /** The user message of a runtime repair: the code in a Python block, then the error in a plain block. */
  function RuntimeRepairPrompt(code: string, errorMsg: string): string {
    "The following Python code encountered a runtime error:\n\n```python\n" + code + "\n```\n\n"
    + "Error message:\n```\n" + errorMsg + "\n```\n\nPlease fix the error and return the complete corrected code."
  }

  /** The conversation of one runtime repair: instructions, then the code and its error. */
  function RuntimeRepairMessages(code: string, errorMsg: string): (r: seq<Message>)
    ensures |r| == 2 && r[0].role == "system" && r[1].role == "user"
    ensures r[0].content == RuntimeRepairSystemPrompt && r[1].content == RuntimeRepairPrompt(code, errorMsg)
  {
    [Message("system", RuntimeRepairSystemPrompt), Message("user", RuntimeRepairPrompt(code, errorMsg))]
  }

  /**
   * The adapter's `RepairCode`: a failed chat is passed on unchanged, otherwise the
   * repaired code is extracted from the reply.
   */
  function AdapterRepair(client: LLMClient, code: string, errorMsg: string): (r: Result<string>)
    ensures var reply := client.generate(ConvertMessages(RuntimeRepairMessages(code, errorMsg)));
      && (reply.Err? ==> r == Err(ErrGenerate + reply.error))
      && (reply.Ok? ==> r == Ok(ExtractRepairCode(reply.value)))
  {
    match ChatReply(client, RuntimeRepairMessages(code, errorMsg))
    case Err(e) => Err(e)
    case Ok(resp) => Ok(ExtractRepairCode(resp))
  }

  /** The adapter as the executor's repairer. */
  function RepairerFor(client: LLMClient): Executor.Repairer {
    (code, errorMsg) => AdapterRepair(client, code, errorMsg)
  }

  // ---------------------------------------------------------------------------------
  // Pure decisions

  /** `GetShowWizard`: the wizard shows unless settings loaded and say explicitly not to. */
  function GetShowWizard(load: Result<Settings>): (r: bool)
    ensures !r <==> load.Ok? && load.value.showWizard == Some(false)
  {
    match load
    case Err(_) => true
    case Ok(s) =>
      match s.showWizard
      case None => true
      case Some(show) => show
  }

  /** All three connection fields are filled in. */
  predicate LLMConfigured(cfg: LLMConfig) {
    cfg.baseURL != "" && cfg.apiKey != "" && cfg.modelName != ""
  }

  /** The uv executable of the settings, "uv" when unset. */
  function UvPathOrDefault(uvPath: string): (r: string)
    ensures r != "" && (uvPath != "" ==> r == uvPath)
  {
    if uvPath == "" then "uv" else uvPath
  }

  /** The status a new project gets from its validation. */
  function AnalysisStatus(valid: bool): (s: string)
    ensures s == "validated" <==> valid
    ensures s == "draft" <==> !valid
  {
    if valid then "validated" else "draft"
  }

  /** The status a project gets from the return of its batch run. */
  function ExecutionStatus(ret: Executor.ExecReturn): (s: string)
    ensures s == "executed" <==> ret.error.None?
    ensures s == "failed" <==> ret.error.Some?
  {
    if ret.error.Some? then "failed" else "executed"
  }

  /**
   * What `AnalyzeSample` hands back, given the analyzer and validator (`None` for nil):
   * the two guards, analysis, optional validation, and the result record.
   */
  function Generation(analyzer: Option<LLMClient>, validator: Option<CodeValidator>,
                      name: string, sample: string, id: string): (r: Result<GenerateResult>)
    ensures r.Ok? ==> r.value.projectID == id
    ensures r.Ok? && r.value.valid ==> validator.Some? && Steps(validator.value).check(r.value.code) == Checked("")
    ensures r.Ok? && !r.value.valid && validator.Some? && validator.value.maxRetries >= 0 ==>
      |r.value.errors| == validator.value.maxRetries + 1
  {
    if analyzer.None? then Err(ErrNotConfigured)
    else if TrimSpace(name) == "" then Err(ErrNoProjectName)
    else
      match Analyze(analyzer.value, sample)
      case Err(e) => Err(ErrAnalysis + e)
      case Ok(code) =>
        if validator.None? then Ok(GenerateResult(id, code, false, []))
        else
          match Run(Steps(validator.value), code)
          case Err(e) => Err(ErrValidation + e)
          case Ok(res) => Ok(GenerateResult(id, res.code, res.valid, res.errors))
  }

  /**
   * The guards come first and in order: no analyzer, then a blank name, each refused
   * before the model is consulted; an analysis failure is reported before validation.
   */
  lemma GenerationGuards(analyzer: Option<LLMClient>, validator: Option<CodeValidator>,
                         name: string, sample: string, id: string)
    ensures var r := Generation(analyzer, validator, name, sample, id);
      && (analyzer.None? ==> r == Err(ErrNotConfigured))
      && (analyzer.Some? && IsBlank(name) ==> r == Err(ErrNoProjectName))
      && (analyzer.Some? && !IsBlank(name) && Analyze(analyzer.value, sample).Err? ==>
            r == Err(ErrAnalysis + Analyze(analyzer.value, sample).error))
      && (r.Ok? ==> analyzer.Some? && !IsBlank(name) && Analyze(analyzer.value, sample).Ok?)
  {
  }

  /**
   * Without a validator the analysis code is kept as a draft with no errors; with one,
   * the result carries the validator's final code, verdict and errors, and a validation
   * failure is reported wrapped.
   */
  lemma GenerationUsesValidator(analyzer: LLMClient, validator: Option<CodeValidator>,
                                name: string, sample: string, id: string)
    requires !IsBlank(name) && Analyze(analyzer, sample).Ok?
    ensures var r := Generation(Some(analyzer), validator, name, sample, id);
      var code := Analyze(analyzer, sample).value;
      && (validator.None? ==> r == Ok(GenerateResult(id, code, false, [])))
      && (validator.Some? ==> var v := Run(Steps(validator.value), code);
            && (v.Ok? ==> r == Ok(GenerateResult(id, v.value.code, v.value.valid, v.value.errors)))
            && (v.Err? ==> r == Err(ErrValidation + v.error)))
  {
  }

  /** A generated project that passed validation has code the syntax checker accepts. */
  lemma ValidatedCodeChecks(analyzer: Option<LLMClient>, v: CodeValidator, name: string, sample: string, id: string)
    requires Generation(analyzer, Some(v), name, sample, id).Ok?
    ensures var g := Generation(analyzer, Some(v), name, sample, id).value;
      g.valid <==> CheckSyntax(v.interpreter(g.code)) == Checked("") && |g.errors| <= v.maxRetries
  {
    GenerationGuards(analyzer, Some(v), name, sample, id);
    GenerationUsesValidator(analyzer.value, Some(v), name, sample, id);
    var run := Run(Steps(v), Analyze(analyzer.value, sample).value);
    assert run.Ok?;
  }

  /** The environment manager's services: the syntax checker and the script runner of one uv installation. */
  datatype Env = Env(uvPath: string, check: string -> CheckIo, run: Executor.ScriptRunner)

  /** The controller and the components it owns. */
  class App {
    var envManager: Env
    var llmClient: Option<LLMClient>
    /** The sample analyzer is the chat client it wraps. */
    var sampleAnalyzer: Option<LLMClient>
    var codeValidator: Option<CodeValidator>
    var batchExecutor: Executor.BatchExecutor?
    const projectManager: ProjectManager?
    var pyenvReady: bool
    var pyenvError: string

    ghost predicate Valid()
      reads this, batchExecutor
    {
      batchExecutor != null ==> batchExecutor.Valid()
    }

    /** `NewApp` after start-up created the environment manager: no chat components yet, environment not ready. */
    constructor (env: Env, store: ProjectManager?)
      ensures Valid() && envManager == env && projectManager == store
      ensures llmClient.None? && sampleAnalyzer.None? && codeValidator.None? && batchExecutor == null
      ensures !pyenvReady && pyenvError == ""
    {
      envManager := env;
      projectManager := store;
      llmClient, sampleAnalyzer, codeValidator, batchExecutor := None, None, None, null;
      pyenvReady, pyenvError := false, "";
    }

    /** The end of the background environment set-up: its error is recorded, or the environment becomes ready. */
    method FinishEnvInit(result: Outcome)
      modifies this
      ensures result.Fail? ==> pyenvError == result.error && pyenvReady == old(pyenvReady)
      ensures result.Pass? ==> pyenvReady && pyenvError == old(pyenvError)
      ensures envManager == old(envManager) && llmClient == old(llmClient) && sampleAnalyzer == old(sampleAnalyzer)
      ensures codeValidator == old(codeValidator) && batchExecutor == old(batchExecutor)
    {
      if result.Fail? {
        pyenvError := result.error;
      } else {
        pyenvReady := true;
      }
    }

    /**
     * `initLLMComponents`: a client that cannot be built changes nothing; otherwise the
     * client, the analyzer, a validator and a fresh executor (both with three retries,
     * the executor repairing through the adapter) replace the old ones.
     */
    method InitLLMComponents(cfg: LLMConfig, connect: LLMConfig -> Result<Generator>) returns (r: Outcome)
      requires Valid()
      modifies this
      ensures Valid()
      ensures envManager == old(envManager) && pyenvReady == old(pyenvReady) && pyenvError == old(pyenvError)
      ensures NewLLMClient(cfg, connect).Err? ==>
        && r == Fail(ErrCreateClient + NewLLMClient(cfg, connect).error)
        && llmClient == old(llmClient) && sampleAnalyzer == old(sampleAnalyzer)
        && codeValidator == old(codeValidator) && batchExecutor == old(batchExecutor)
      ensures NewLLMClient(cfg, connect).Ok? ==>
        var c := NewLLMClient(cfg, connect).value;
        && r == Pass && llmClient == Some(c) && sampleAnalyzer == Some(c)
        && codeValidator == Some(CodeValidator(envManager.check, c, ComponentRetries))
        && batchExecutor != null && fresh(batchExecutor)
        && batchExecutor.deps == Executor.Deps(envManager.run, Some(RepairerFor(c)), ComponentRetries)
        && batchExecutor.progress == IdleProgress
    {
      var client := NewLLMClient(cfg, connect);
      if client.Err? {
        return Fail(ErrCreateClient + client.error);
      }
      llmClient := Some(client.value);
      sampleAnalyzer := Some(client.value);
      codeValidator := Some(CodeValidator(envManager.check, client.value, ComponentRetries));
      batchExecutor := new Executor.BatchExecutor(Executor.Deps(envManager.run, Some(RepairerFor(client.value)), ComponentRetries));
      return Pass;
    }

    /**
     * `SaveSettings`: a failed save changes nothing; otherwise the environment manager is
     * rebuilt for the settings' uv path, and when all three connection fields are set the
     * chat components are rebuilt on it, or kept as they were if the client cannot connect.
     */
    method SaveSettings(settings: Settings, saved: Outcome, spawn: string -> Env,
                        connect: LLMConfig -> Result<Generator>) returns (r: Outcome)
      requires Valid()
      modifies this
      ensures Valid()
      ensures pyenvReady == old(pyenvReady) && pyenvError == old(pyenvError)
      ensures saved.Fail? ==> (r == Fail(ErrSaveSettings + saved.error) && envManager == old(envManager)
        && llmClient == old(llmClient) && sampleAnalyzer == old(sampleAnalyzer)
        && codeValidator == old(codeValidator) && batchExecutor == old(batchExecutor))
      ensures saved.Pass? ==> envManager == spawn(UvPathOrDefault(settings.uvPath))
      ensures saved.Pass? && !LLMConfigured(settings.llm) ==> (r == Pass
        && llmClient == old(llmClient) && sampleAnalyzer == old(sampleAnalyzer)
        && codeValidator == old(codeValidator) && batchExecutor == old(batchExecutor))
      ensures saved.Pass? && LLMConfigured(settings.llm) ==> (r == Pass <==> connect(settings.llm).Ok?)
      ensures saved.Pass? && LLMConfigured(settings.llm) && r.Fail? ==>
        && r.error == ErrReinit + ErrCreateClient + ErrChatModel + connect(settings.llm).error
        && llmClient == old(llmClient) && sampleAnalyzer == old(sampleAnalyzer)
        && codeValidator == old(codeValidator) && batchExecutor == old(batchExecutor)
      ensures saved.Pass? && LLMConfigured(settings.llm) && r.Pass? ==>
        var c := LLMClient(connect(settings.llm).value);
        && llmClient == Some(c) && sampleAnalyzer == Some(c)
        && codeValidator == Some(CodeValidator(envManager.check, c, ComponentRetries))
        && batchExecutor != null && fresh(batchExecutor)
        && batchExecutor.deps == Executor.Deps(envManager.run, Some(RepairerFor(c)), ComponentRetries)
        && batchExecutor.progress == IdleProgress
    {
      if saved.Fail? {
        return Fail(ErrSaveSettings + saved.error);
      }
      envManager := spawn(UvPathOrDefault(settings.uvPath));
      if LLMConfigured(settings.llm) {
        var init := InitLLMComponents(settings.llm, connect);
        if init.Fail? {
          return Fail(ErrReinit + init.error);
        }
      }
      return Pass;
    }

    /**
     * `AnalyzeSample`: returns what `Generation` says; on success, and when the store
     * exists, the project is created under `projectID` with the trimmed name (made unique),
     * the sample, the final code, the status of its validation and `now` as both times.
     */
    method AnalyzeSample(projectName: string, sampleText: string, projectID: string, now: int) returns (r: Result<GenerateResult>)
      modifies projectManager
      ensures r == Generation(sampleAnalyzer, codeValidator, projectName, sampleText, projectID)
      ensures r.Err? && projectManager != null ==> unchanged(projectManager)
      ensures r.Ok? && projectManager != null ==>
        var name := UniqueNameSpec(TrimSpace(projectName), StoreTaken(old(projectManager.files), projectID));
        projectManager.files == old(projectManager.files)[FileName(projectID) :=
          Stored(Project(projectID, name, sampleText, r.value.code, now, now, AnalysisStatus(r.value.valid)))]
    {
      if sampleAnalyzer.None? {
        return Err(ErrNotConfigured);
      }
      if TrimSpace(projectName) == "" {
        return Err(ErrNoProjectName);
      }
      var analyzed := Analyze(sampleAnalyzer.value, sampleText);
      if analyzed.Err? {
        return Err(ErrAnalysis + analyzed.error);
      }
      var code := analyzed.value;
      var valid := false;
      var errors: seq<string> := [];
      if codeValidator.Some? {
        ghost var checks, repairs;
        var validation;
        validation, checks, repairs := Validate(codeValidator.value, code);
        if validation.Err? {
          return Err(ErrValidation + validation.error);
        }
        code := validation.value.code;
        valid := validation.value.valid;
        errors := validation.value.errors;
      }
      var status := AnalysisStatus(valid);
      var p := Project(projectID, TrimSpace(projectName), sampleText, code, now, now, status);
      if projectManager != null {
        projectManager.Create(p);
      }
      return Ok(GenerateResult(projectID, code, valid, errors));
    }

    /**
     * `RunBatch`: five guards in order, each failing without touching the executor or the
     * store; past them the batch runs to completion and the project's status records
     * whether `Execute` returned an error.
     */
    method RunBatch(projectID: string, inputDir: string, outputDir: string, host: Executor.Host, now: int) returns (r: Outcome)
      requires Valid()
      modifies batchExecutor, projectManager
      ensures Valid()
      ensures batchExecutor == null ==> r == Fail(ErrNotConfigured) && (projectManager != null ==> unchanged(projectManager))
      ensures batchExecutor != null && projectManager == null ==> r == Fail(ErrNoManager) && unchanged(batchExecutor)
      ensures batchExecutor != null && projectManager != null && !pyenvReady ==>
        r == Fail(ErrEnvNotReady) && unchanged(batchExecutor, projectManager)
      ensures batchExecutor != null && projectManager != null && pyenvReady && old(projectManager.Get(projectID)).Err? ==>
        r == Fail(ErrGetProject + old(projectManager.Get(projectID)).error) && unchanged(batchExecutor, projectManager)
      ensures batchExecutor != null && projectManager != null && pyenvReady && old(projectManager.Get(projectID)).Ok?
              && IsBlank(old(projectManager.Get(projectID)).value.code) ==>
        r == Fail(ErrEmptyCode) && unchanged(batchExecutor, projectManager)
      ensures batchExecutor != null && projectManager != null && pyenvReady && old(projectManager.Get(projectID)).Ok?
              && !IsBlank(old(projectManager.Get(projectID)).value.code) ==>
        var p := old(projectManager.Get(projectID)).value;
        var t := Executor.ExecuteSpec(batchExecutor.deps, host, p.code, inputDir, outputDir);
        && r == Pass
        && batchExecutor.history == old(batchExecutor.history) + t.published
        && projectManager.files == old(projectManager.files)[FileName(projectID) :=
             Stored(p.(status := ExecutionStatus(t.ret), updatedAt := now))]
    {
      if batchExecutor == null {
        return Fail(ErrNotConfigured);
      }
      if projectManager == null {
        return Fail(ErrNoManager);
      }
      var envReady := pyenvReady;
      if !envReady {
        return Fail(ErrEnvNotReady);
      }
      var got := projectManager.Get(projectID);
      if got.Err? {
        return Fail(ErrGetProject + got.error);
      }
      var p := got.value;
      if TrimSpace(p.code) == "" {
        return Fail(ErrEmptyCode);
      }
      var ret := batchExecutor.Execute(p.code, inputDir, outputDir, host);
      var status := ExecutionStatus(ret);
      var _ := projectManager.Update(projectID, ProjectUpdate(None, None, Some(status)), now);
      return Pass;
    }

    /** `GetBatchProgress`: the executor's current snapshot, or an "idle" one when there is none. */
    method GetBatchProgress() returns (p: BatchProgress)
      requires Valid()
      ensures batchExecutor == null ==> p == IdleProgress && p.status == "idle"
      ensures batchExecutor != null ==> p == batchExecutor.progress
    {
      if batchExecutor == null {
        return BatchProgress("idle", "", 0.0, 0, 0, 0, "");
      }
      p := batchExecutor.GetProgress();
    }
  }
}
