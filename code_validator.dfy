/**
 * Syntax validation with LLM repair (`internal/agent/code_validator.go`). The Python
 * compiler run is an oracle: for each candidate it yields what the temp-file set-up and
 * the interpreter did. The chat model is the client's oracle. `Validate` is the
 * imperative retry loop; `ValidateFrom`, stated over the loop's two steps, is the
 * specification it is proved against.
 */
module CodeValidation {
  import opened Wrappers
  import opened Text
  import opened Model
  import opened LlmClient
  import opened SampleAnalysis

  /** What checking one candidate did: a failed temp-dir or temp-file step, or an interpreter run. */
  datatype CheckIo =
    | TempDirFailed(error: string)
    | WriteFailed(error: string)
    | Ran(exitOk: bool, output: string, errorText: string)

  /** The two results of `checkSyntax`: a diagnostic ("" when the code compiles) or an error. */
  datatype CheckOutcome = Checked(diagnostic: string) | CheckFailed(error: string)

  const ErrTempDir := "failed to create temp dir: "
  const ErrTempFile := "failed to write temp file: "
  const ErrCheckFailed := "syntax check execution failed: "
  const ErrRepairFailed := "LLM repair failed: "

  /** The outcome of validation. */
  datatype ValidationResult = ValidationResult(valid: bool, code: string, errors: seq<string>, retries: int)

  /** A validator: the compiler oracle, the chat client used for repair, and the retry budget. */
  datatype CodeValidator = CodeValidator(interpreter: string -> CheckIo, client: LLMClient, maxRetries: int)

  /**
   * `checkSyntax`: only the temp-dir and temp-file steps are errors. A failed run
   * yields the trimmed combined output, or the run's error text when that output is blank.
   */
  function CheckSyntax(io: CheckIo): (r: CheckOutcome)
    ensures r.CheckFailed? <==> io.TempDirFailed? || io.WriteFailed?
    ensures io.TempDirFailed? ==> r == CheckFailed(ErrTempDir + io.error)
    ensures io.WriteFailed? ==> r == CheckFailed(ErrTempFile + io.error)
    ensures io.Ran? && io.exitOk ==> r == Checked("")
  {
    match io
    case TempDirFailed(e) => CheckFailed(ErrTempDir + e)
    case WriteFailed(e) => CheckFailed(ErrTempFile + e)
    case Ran(exitOk, output, errorText) =>
      if exitOk then Checked("")
      else
        var msg := TrimSpace(output);
        Checked(if msg == "" then errorText else msg)
  }

  /**
   * A failed run always yields a non-empty diagnostic when the run's error has text:
   * the trimmed output when that is not blank, otherwise the error text.
   */
  lemma CheckSyntaxDiagnostic(io: CheckIo)
    requires io.Ran? && !io.exitOk
    ensures !IsBlank(io.output) ==> CheckSyntax(io) == Checked(TrimSpace(io.output))
    ensures IsBlank(io.output) ==> CheckSyntax(io) == Checked(io.errorText)
    ensures io.errorText != "" ==> CheckSyntax(io).Checked? && CheckSyntax(io).diagnostic != ""
  {
  }

  const RepairSystemPrompt := "You are an expert Python developer. Fix the syntax error in the given Python code. "
    + "Return the complete fixed Python code inside a single ```python code block. "
    + "Do not explain the changes, just return the corrected code."

  /** The user message of a repair request: the code in a Python block, then the diagnostic in a plain block. */
  function RepairUserPrompt(code: string, diagnostic: string): string {
    RepairCodeIntro + code + RepairErrorIntro + diagnostic + RepairOutro
  }

  const RepairCodeIntro := "The following Python code has a syntax error:\n\n```python\n"
  const RepairErrorIntro := "\n```\n\n" + "Error message:\n```\n"
  const RepairOutro := "\n```\n\nPlease fix the syntax error and return the complete corrected code."

  /** The two-message repair conversation. */
  function RepairMessages(code: string, diagnostic: string): (r: seq<Message>)
    ensures |r| == 2
    ensures r[0] == Message("system", RepairSystemPrompt)
    ensures r[1] == Message("user", RepairUserPrompt(code, diagnostic))
  {
    [Message("system", RepairSystemPrompt), Message("user", RepairUserPrompt(code, diagnostic))]
  }

  /** `repairCode`: ask the model for a fix of `code` and extract the code from its reply. */
  function RepairCode(client: LLMClient, code: string, diagnostic: string): Result<string> {
    match ChatReply(client, RepairMessages(code, diagnostic))
    case Err(e) => Err(e)
    case Ok(resp) => Ok(ExtractCode(resp))
  }

  /**
   * The model sees the repair conversation; its failure is passed on, otherwise the
   * repaired candidate is the code extracted from its reply, trimmed and possibly empty.
   */
  lemma RepairCodeReply(client: LLMClient, code: string, diagnostic: string)
    ensures var reply := client.generate([SchemaMessage(SystemRole, RepairSystemPrompt),
                                          SchemaMessage(UserRole, RepairUserPrompt(code, diagnostic))]);
      var r := RepairCode(client, code, diagnostic);
      && (reply.Err? ==> r == Err(ErrGenerate + reply.error))
      && (reply.Ok? ==> r == Ok(ExtractCode(reply.value)))
      && (r.Ok? ==> IsTrimmed(r.value))
  {
    var msgs := RepairMessages(code, diagnostic);
    assert ConvertMessages(msgs) == [SchemaMessage(SystemRole, RepairSystemPrompt),
                                     SchemaMessage(UserRole, RepairUserPrompt(code, diagnostic))];
    match ChatReply(client, msgs)
    case Err(_) =>
    case Ok(resp) => ExtractCodeShape(resp);
  }

  /** The two steps the retry loop alternates, and its retry budget. */
  datatype LoopSteps = LoopSteps(check: string -> CheckOutcome, repair: (string, string) -> Result<string>, maxRetries: int)

  /** The steps of a validator: `checkSyntax` through its compiler oracle and `repairCode` through its client. */
  function Steps(v: CodeValidator): (s: LoopSteps)
    ensures s.maxRetries == v.maxRetries
    ensures forall c :: s.check(c) == CheckSyntax(v.interpreter(c))
    ensures forall c, d :: s.repair(c, d) == RepairCode(v.client, c, d)
  {
    LoopSteps(c => CheckSyntax(v.interpreter(c)), (c, d) => RepairCode(v.client, c, d), v.maxRetries)
  }

  /**
   * The retry loop from attempt `attempt` on, with `current` the candidate and `errors`
   * the diagnostics collected so far (one per earlier attempt).
   */
  function ValidateFrom(s: LoopSteps, attempt: nat, current: string, errors: seq<string>): (r: Result<ValidationResult>)
    requires |errors| == attempt
    decreases s.maxRetries - attempt
    ensures r.Ok? ==> errors <= r.value.errors
    ensures r.Ok? && r.value.valid ==>
      && attempt <= r.value.retries <= s.maxRetries
      && |r.value.errors| == r.value.retries
      && s.check(r.value.code) == Checked("")
    ensures r.Ok? && !r.value.valid ==> r.value.retries == s.maxRetries
    ensures r.Ok? && !r.value.valid && attempt <= s.maxRetries ==>
      && |r.value.errors| == s.maxRetries + 1
      && var out := s.check(r.value.code);
         out.Checked? && out.diagnostic != "" && r.value.errors[s.maxRetries] == out.diagnostic
    ensures r.Ok? && !r.value.valid && attempt > s.maxRetries ==> r.value.errors == errors && r.value.code == current
  {
    if attempt > s.maxRetries then Ok(ValidationResult(false, current, errors, s.maxRetries))
    else
      match s.check(current)
      case CheckFailed(e) => Err(ErrCheckFailed + e)
      case Checked(d) =>
        if d == "" then Ok(ValidationResult(true, current, errors, attempt))
        else if attempt >= s.maxRetries then Ok(ValidationResult(false, current, errors + [d], s.maxRetries))
        else
          match s.repair(current, d)
          case Err(e) => Err(ErrRepairFailed + e)
          case Ok(fixed) => ValidateFrom(s, attempt + 1, fixed, errors + [d])
  }

  /** The whole loop, from the first attempt with no diagnostics. */
  function Run(s: LoopSteps, code: string): (r: Result<ValidationResult>)
    ensures r.Ok? && r.value.valid ==>
      0 <= r.value.retries <= s.maxRetries && |r.value.errors| == r.value.retries
      && s.check(r.value.code) == Checked("")
    ensures r.Ok? && !r.value.valid ==>
      r.value.retries == s.maxRetries && |r.value.errors| == (if s.maxRetries >= 0 then s.maxRetries + 1 else 0)
  {
    ValidateFrom(s, 0, code, [])
  }

  /**
   * `Validate`: check, and while the check fails and retries remain, repair and check
   * again. `checks` and `repairs` count the compiler runs and the repair requests.
   */
  method Validate(v: CodeValidator, code: string) returns (r: Result<ValidationResult>, ghost checks: nat, ghost repairs: nat)
    ensures r == Run(Steps(v), code)
    ensures checks <= (if v.maxRetries >= 0 then v.maxRetries + 1 else 0)
    ensures repairs <= checks <= repairs + 1
    ensures repairs <= (if v.maxRetries > 0 then v.maxRetries else 0)
    ensures r.Ok? && v.maxRetries >= 0 ==> checks == repairs + 1
    ensures r.Ok? ==> |r.value.errors| == (if r.value.valid then checks - 1 else checks)
  {
    ghost var s := Steps(v);
    var errors: seq<string> := [];
    var currentCode := code;
    var attempt: nat := 0;
    checks, repairs := 0, 0;
    while attempt <= v.maxRetries
      invariant |errors| == attempt && checks == attempt && repairs == attempt
      invariant attempt > 0 ==> attempt <= v.maxRetries
      invariant ValidateFrom(s, attempt, currentCode, errors) == Run(s, code)
      decreases v.maxRetries - attempt
    {
      var outcome := CheckSyntax(v.interpreter(currentCode));
      checks := checks + 1;
      if outcome.CheckFailed? {
        return Err(ErrCheckFailed + outcome.error), checks, repairs;
      }
      var syntaxErr := outcome.diagnostic;
      if syntaxErr == "" {
        return Ok(ValidationResult(true, currentCode, errors, attempt)), checks, repairs;
      }
      errors := errors + [syntaxErr];
      if attempt >= v.maxRetries {
        break;
      }
      var resp := Chat(v.client, RepairMessages(currentCode, syntaxErr));
      RepairFromChat(v.client, currentCode, syntaxErr, resp);
      repairs := repairs + 1;
      if resp.Err? {
        return Err(ErrRepairFailed + resp.error), checks, repairs;
      }
      currentCode := ExtractCode(resp.value);
      attempt := attempt + 1;
    }
    r := Ok(ValidationResult(false, currentCode, errors, v.maxRetries));
  }

  /** What `repairCode` returns, given the reply of its chat request. */
  lemma RepairFromChat(client: LLMClient, code: string, diagnostic: string, resp: Result<string>)
    requires resp == ChatReply(client, RepairMessages(code, diagnostic))
    ensures resp.Err? ==> RepairCode(client, code, diagnostic) == Err(resp.error)
    ensures resp.Ok? ==> RepairCode(client, code, diagnostic) == Ok(ExtractCode(resp.value))
  {
  }

  /** A stage of the loop: the candidate about to be checked and the diagnostics so far. */
  datatype Stage = Stage(candidate: string, errors: seq<string>)

  /**
   * The stage reached after `k` failed checks, each followed by a successful repair;
   * `None` when one of the first `k` checks passes or errs, or a repair fails.
   */
  function Reach(s: LoopSteps, code: string, k: nat): (r: Option<Stage>)
    ensures r.Some? ==> |r.value.errors| == k
    ensures r.Some? ==> forall i :: 0 <= i < k ==> r.value.errors[i] != ""
  {
    if k == 0 then Some(Stage(code, []))
    else
      match Reach(s, code, k - 1)
      case None => None
      case Some(st) =>
        match s.check(st.candidate)
        case CheckFailed(_) => None
        case Checked(d) =>
          if d == "" then None
          else
            match s.repair(st.candidate, d)
            case Err(_) => None
            case Ok(fixed) => Some(Stage(fixed, st.errors + [d]))
  }

  /** One failed check followed by a successful repair moves the loop to the next attempt. */
  lemma ValidateStep(s: LoopSteps, attempt: nat, current: string, errors: seq<string>, d: string, fixed: string)
    requires |errors| == attempt && attempt < s.maxRetries
    requires d != "" && s.check(current) == Checked(d)
    requires s.repair(current, d) == Ok(fixed)
    ensures ValidateFrom(s, attempt, current, errors) == ValidateFrom(s, attempt + 1, fixed, errors + [d])
  {
  }

  /** A stage reached after `k > 0` steps comes from a failed check and a successful repair at step `k - 1`. */
  lemma ReachUnfold(s: LoopSteps, code: string, k: nat)
    requires k > 0 && Reach(s, code, k).Some?
    ensures Reach(s, code, k - 1).Some?
    ensures var st := Reach(s, code, k - 1).value; var out := s.check(st.candidate);
      && out.Checked? && out.diagnostic != ""
      && s.repair(st.candidate, out.diagnostic).Ok?
      && Reach(s, code, k).value == Stage(s.repair(st.candidate, out.diagnostic).value, st.errors + [out.diagnostic])
  {
  }

  /** Every stage before a reached stage is reached too. */
  lemma {:induction false} ReachPrefix(s: LoopSteps, code: string, k: nat, j: nat)
    requires j <= k && Reach(s, code, k).Some?
    decreases k
    ensures Reach(s, code, j).Some?
  {
    if j < k {
      ReachUnfold(s, code, k);
      ReachPrefix(s, code, k - 1, j);
    }
  }

  /** Reaching stage `k` (within the budget) leaves the rest of validation to that stage. */
  lemma ValidationContinues(s: LoopSteps, code: string, k: nat)
    requires k <= s.maxRetries
    requires Reach(s, code, k).Some?
    ensures ValidateFrom(s, k, Reach(s, code, k).value.candidate, Reach(s, code, k).value.errors) == Run(s, code)
  {
    var j := 0;
    while j < k
      invariant j <= k && Reach(s, code, j).Some?
      invariant ValidateFrom(s, j, Reach(s, code, j).value.candidate, Reach(s, code, j).value.errors) == Run(s, code)
    {
      ReachPrefix(s, code, k, j + 1);
      ContinuesStep(s, code, j + 1);
      j := j + 1;
    }
  }

  /** The loop specification is the same from stage `k - 1` as from stage `k`. */
  lemma ContinuesStep(s: LoopSteps, code: string, k: nat)
    requires 0 < k <= s.maxRetries
    requires Reach(s, code, k).Some? && Reach(s, code, k - 1).Some?
    requires ValidateFrom(s, k - 1, Reach(s, code, k - 1).value.candidate, Reach(s, code, k - 1).value.errors) == Run(s, code)
    ensures ValidateFrom(s, k, Reach(s, code, k).value.candidate, Reach(s, code, k).value.errors) == Run(s, code)
  {
    ReachUnfold(s, code, k);
    var st := Reach(s, code, k - 1).value;
    var d := s.check(st.candidate).diagnostic;
    ValidateStep(s, k - 1, st.candidate, st.errors, d, s.repair(st.candidate, d).value);
  }

  /** The first passing check at attempt `k` gives a valid result with `k` retries and that candidate. */
  lemma FirstPassAt(s: LoopSteps, code: string, k: nat)
    requires k <= s.maxRetries
    requires Reach(s, code, k).Some?
    requires s.check(Reach(s, code, k).value.candidate) == Checked("")
    ensures Run(s, code) == Ok(ValidationResult(true, Reach(s, code, k).value.candidate, Reach(s, code, k).value.errors, k))
  {
    ValidationContinues(s, code, k);
  }

  /**
   * When the check at the last attempt also fails, the result is invalid, counts
   * `maxRetries` retries, holds the last candidate, and no repair follows.
   */
  lemma Exhausted(s: LoopSteps, code: string)
    requires s.maxRetries >= 0
    requires Reach(s, code, s.maxRetries).Some?
    requires var out := s.check(Reach(s, code, s.maxRetries).value.candidate);
      out.Checked? && out.diagnostic != ""
    ensures var st := Reach(s, code, s.maxRetries).value;
      var d := s.check(st.candidate).diagnostic;
      Run(s, code) == Ok(ValidationResult(false, st.candidate, st.errors + [d], s.maxRetries))
  {
    ValidationContinues(s, code, s.maxRetries);
  }

  /** A check that cannot be carried out at a reached attempt aborts validation with that error. */
  lemma CheckErrorAborts(s: LoopSteps, code: string, k: nat)
    requires k <= s.maxRetries
    requires Reach(s, code, k).Some?
    requires s.check(Reach(s, code, k).value.candidate).CheckFailed?
    ensures Run(s, code) == Err(ErrCheckFailed + s.check(Reach(s, code, k).value.candidate).error)
  {
    ValidationContinues(s, code, k);
  }

  /** A repair request that fails after a failing check with retries left aborts validation. */
  lemma RepairErrorAborts(s: LoopSteps, code: string, k: nat)
    requires k < s.maxRetries
    requires Reach(s, code, k).Some?
    requires var st := Reach(s, code, k).value; var out := s.check(st.candidate);
      out.Checked? && out.diagnostic != "" && s.repair(st.candidate, out.diagnostic).Err?
    ensures var st := Reach(s, code, k).value; var d := s.check(st.candidate).diagnostic;
      Run(s, code) == Err(ErrRepairFailed + s.repair(st.candidate, d).error)
  {
    ValidationContinues(s, code, k);
  }

  /** With a negative budget nothing is checked and the code comes back invalid and unchanged. */
  lemma NoBudget(s: LoopSteps, code: string)
    requires s.maxRetries < 0
    ensures Run(s, code) == Ok(ValidationResult(false, code, [], s.maxRetries))
  {
  }
}
