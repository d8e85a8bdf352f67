/**
 * The shared records of the application (Go package `model`). Timestamps are
 * integers (an abstract clock reading) and the float64 progress fraction is a real.
 */
module Model {
  import opened Wrappers

  /** Connection settings of the remote chat model. */
  datatype LLMConfig = LLMConfig(baseURL: string, apiKey: string, modelName: string)

  /** Application settings; `showWizard` is an optional (pointer) field. */
  datatype Settings = Settings(
    llm: LLMConfig,
    uvPath: string,
    defaultInputDir: string,
    defaultOutputDir: string,
    showWizard: Option<bool>)

  /** One code-generation project record; `status` is "draft", "validated", "executed" or "failed". */
  datatype Project = Project(
    id: string,
    name: string,
    sampleData: string,
    code: string,
    createdAt: int,
    updatedAt: int,
    status: string)

  /** A partial update: only the present fields are applied. */
  datatype ProjectUpdate = ProjectUpdate(name: Option<string>, code: Option<string>, status: Option<string>)

  /** What sample analysis hands back to the user interface. */
  datatype GenerateResult = GenerateResult(projectID: string, code: string, valid: bool, errors: seq<string>)

  /** Summary of one batch run. */
  datatype BatchResult = BatchResult(
    totalFiles: int,
    succeeded: int,
    failed: int,
    outputPath: string,
    errors: seq<string>)

  /** A snapshot of batch progress; `status` is "idle", "running", "fixing", "completed" or "failed". */
  datatype BatchProgress = BatchProgress(
    status: string,
    currentFile: string,
    progress: real,
    totalFiles: int,
    processed: int,
    failed: int,
    message: string)

  /** One message of a chat conversation; `role` is "system", "user" or "assistant". */
  datatype Message = Message(role: string, content: string)

  /** One progress line printed by a running script. */
  datatype ProgressInfo = ProgressInfo(file: string, progress: real, total: int, current: int)

  /** The snapshot that only carries status "idle". */
  const IdleProgress := BatchProgress("idle", "", 0.0, 0, 0, 0, "")

  /** A batch result with no counts, no output path and no errors. */
  const EmptyBatchResult := BatchResult(0, 0, 0, "", [])
}
