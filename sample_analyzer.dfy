/**
 * Sample analysis (`internal/agent/sample_analyzer.go`): the prompt sent to the chat
 * model and the extraction of Python code from its reply. Extraction is pure text
 * processing and is proved here: where a fenced block is found, what its interior is,
 * and when the plain-text fallback applies.
 */
module SampleAnalysis {
  import opened Wrappers
  import opened Text
  import opened Model
  import opened LlmClient

  const ErrEmptySample := "sample text must not be empty"
  const ErrNoCode := "LLM response did not contain valid Python code"

  /** The opening (and closing) fence of a Markdown code block. */
  const Fence := "```"
  /** The opening fence of a Python code block. */
  const PythonFence := "```python"

  /**
   * The fixed instructions sent as the system message (what the generated program must
   * do: its command line, one sheet per log file, the forbidden columns, the progress
   * lines it prints). Its wording is not part of this model.
   */
  const SystemPrompt: string

  const UserPromptIntro := "Please analyze the following sample log entries and generate a complete Python processing program.\n\nSample log entries:\n"

  /** The user message: fixed instructions, then the sample inside a plain fenced block. */
  function BuildUserPrompt(sample: string): string {
    UserPromptIntro + Fence + "\n" + sample + "\n" + Fence
  }

  /** The two-message conversation of one analysis: system instructions, then the user prompt. */
  function AnalysisMessages(sample: string): (r: seq<Message>)
    ensures |r| == 2
    ensures r[0].role == "system" && r[0].content == SystemPrompt
    ensures r[1].role == "user" && r[1].content == BuildUserPrompt(sample)
  {
    [Message("system", SystemPrompt), Message("user", BuildUserPrompt(sample))]
  }

  /**
   * The trimmed interior of the first code block whose opening fence starts with
   * `prefix`: the block's content begins after the first newline that follows the
   * prefix, and ends at the first closing fence after that. A missing prefix, a missing
   * newline or a missing closing fence means no block.
   */
  function ExtractFencedBlock(text: string, prefix: string): (r: Option<string>)
    ensures !Contains(text, prefix) ==> r.None?
    ensures r.Some? ==> IsTrimmed(r.value) && !Contains(r.value, Fence)
  {
    match IndexOf(text, prefix)
    case None => None
    case Some(start) => BlockAt(text, start)
  }

  /**
   * The block whose opening fence starts at `start`: its content begins after the first
   * newline at or after `start` and ends at the first closing fence after that.
   */
  function BlockAt(text: string, start: nat): (r: Option<string>)
    requires start <= |text|
    ensures r.Some? ==> IsTrimmed(r.value) && !Contains(r.value, Fence)
  {
    match IndexOf(text[start..], "\n")
    case None => None
    case Some(nl) =>
      var rest := text[start + nl + 1..];
      match IndexOf(rest, Fence)
      case None => None
      case Some(end) =>
        NoneBeforeFirst(rest, Fence, end);
        TrimSpaceKeepsAbsence(rest[..end], Fence);
        Some(TrimSpace(rest[..end]))
  }

  /** The reply looks like Python when it mentions one of five telltale tokens. */
  predicate LooksLikePython(t: string) {
    Contains(t, "import ") || Contains(t, "def ") || Contains(t, "class ")
    || Contains(t, "print(") || Contains(t, "if __name__")
  }

  /** The plain-text fallback: the trimmed reply if it looks like Python, otherwise nothing. */
  function Fallback(response: string): (r: string)
    ensures r == "" || (r == TrimSpace(response) && LooksLikePython(r))
  {
    var trimmed := TrimSpace(response);
    if LooksLikePython(trimmed) then trimmed else ""
  }

  /**
   * The code in a model reply: a Python block first, then any block, then the
   * fallback. A block found but empty yields "" without falling through.
   */
  function ExtractCode(response: string): string {
    match ExtractFencedBlock(response, PythonFence)
    case Some(code) => code
    case None =>
      match ExtractFencedBlock(response, Fence)
      case Some(code) => code
      case None => Fallback(response)
  }

  /** The three searches located at `start`, `nl` and the end of `body` give back `body` trimmed. */
  lemma FencedBlockAt(text: string, prefix: string, start: nat, nl: nat, body: string)
    requires IndexOf(text, prefix) == Some(start)
    requires start <= |text| && IndexOf(text[start..], "\n") == Some(nl)
    requires start + nl + 1 <= |text| && IndexOf(text[start + nl + 1..], Fence) == Some(|body|)
    requires start + nl + 1 + |body| <= |text| && text[start + nl + 1..start + nl + 1 + |body|] == body
    ensures ExtractFencedBlock(text, prefix) == Some(TrimSpace(body))
  {
    var rest := text[start + nl + 1..];
    assert rest[..|body|] == body;
  }

  /**
   * Extracted code is always trimmed; when the reply has a complete block it holds no
   * fence, and when it has none the plain-text fallback decides.
   */
  lemma ExtractCodeShape(response: string)
    ensures IsTrimmed(ExtractCode(response))
    ensures ExtractFencedBlock(response, Fence).Some? ==> !Contains(ExtractCode(response), Fence)
    ensures ExtractFencedBlock(response, Fence).None? ==> ExtractCode(response) == Fallback(response)
  {
    PythonFenceImpliesFence(response);
  }

  /** Whenever a Python block is found, a plain block is found too. */
  lemma PythonFenceImpliesFence(t: string)
    ensures ExtractFencedBlock(t, PythonFence).Some? ==> ExtractFencedBlock(t, Fence).Some?
  {
    if ExtractFencedBlock(t, PythonFence).Some? {
      var p := IndexOf(t, PythonFence).value;
      PythonFenceStartsWithFence(t, p);
      BlockAtEarlier(t, IndexOf(t, Fence).value, p);
    }
  }

  /** A block that opens at `p` implies one that opens at any earlier `g`. */
  lemma BlockAtEarlier(t: string, g: nat, p: nat)
    requires g <= p <= |t|
    ensures BlockAt(t, p).Some? ==> BlockAt(t, g).Some?
  {
    if BlockAt(t, p).Some? {
      var nlp := IndexOf(t[p..], "\n").value;
      OccursShift(t, p, "\n", nlp);
      OccursShift(t, g, "\n", p + nlp - g);
      var nlg := IndexOf(t[g..], "\n").value;
      var csp := p + nlp + 1;
      var csg := g + nlg + 1;
      var endp := IndexOf(t[csp..], Fence).value;
      OccursShift(t, csp, Fence, endp);
      OccursShift(t, csg, Fence, csp + endp - csg);
    }
  }

  /** A Python fence at `p` is a plain fence at `p`, so the first plain fence is no later. */
  lemma PythonFenceStartsWithFence(t: string, p: nat)
    requires OccursAt(t, PythonFence, p)
    ensures IndexOf(t, Fence).Some? && IndexOf(t, Fence).value <= p
  {
    assert t[p..p + 3] == t[p..p + 9][..3];
    assert OccursAt(t, Fence, p);
  }

  /**
   * Round trip of a code block: text before it that does not contain the prefix (not
   * even cut short), an opening line without another newline, and an interior with no
   * closing fence (not even one completed by the fence that follows) give back exactly
   * the trimmed interior, whatever follows the block.
   */
  lemma FencedBlockRoundTrip(pre: string, prefix: string, tag: string, body: string, post: string)
    requires |prefix| > 0
    requires !Contains(pre + prefix[..|prefix| - 1], prefix)
    requires !Contains(prefix + tag, "\n")
    requires !Contains(body + "``", Fence)
    ensures ExtractFencedBlock(pre + prefix + tag + "\n" + body + Fence + post, prefix) == Some(TrimSpace(body))
  {
    var w := body + (Fence + post);
    var text := pre + (prefix + tag + ("\n" + w));
    var x := |pre| + |prefix + tag| + 1;
    OpeningFenceFirst(pre, prefix, tag + ("\n" + w));
    assert prefix + (tag + ("\n" + w)) == prefix + tag + ("\n" + w);
    OpeningLineEnd(pre, prefix + tag, w);
    assert text[x..] == w;
    ClosingFenceFirst(text, x, body, post);
    FencedBlockAt(text, prefix, |pre|, |prefix + tag|, body);
    BlockShape(pre, prefix, tag, body, post);
  }

  /** The first occurrence of `prefix` is the one right after `pre`, which holds none. */
  lemma OpeningFenceFirst(pre: string, prefix: string, rest: string)
    requires |prefix| > 0
    requires !Contains(pre + prefix[..|prefix| - 1], prefix)
    ensures IndexOf(pre + (prefix + rest), prefix) == Some(|pre|)
  {
    assert (prefix + rest)[..|prefix|] == prefix;
    FirstAtJoin(pre, prefix + rest, prefix);
  }

  /** The first newline from the opening fence on is the one that ends its line. */
  lemma OpeningLineEnd(pre: string, line: string, w: string)
    requires !Contains(line, "\n")
    ensures IndexOf((pre + (line + ("\n" + w)))[|pre|..], "\n") == Some(|line|)
  {
    assert (pre + (line + ("\n" + w)))[|pre|..] == line + ("\n" + w);
    assert line + "\n"[..0] == line;
    FirstAtJoin(line, "\n" + w, "\n");
  }

  /** From `x` on, the first closing fence is the one right after `body`, which holds none. */
  lemma ClosingFenceFirst(text: string, x: nat, body: string, post: string)
    requires x <= |text| && text[x..] == body + (Fence + post)
    requires !Contains(body + "``", Fence)
    ensures IndexOf(text[x..], Fence) == Some(|body|)
    ensures x + |body| <= |text| && text[x..x + |body|] == body
  {
    assert Fence[..|Fence| - 1] == "``";
    FirstAtJoin(body, Fence + post, Fence);
    assert text[x..x + |body|] == text[x..][..|body|];
  }

  /** Regrouping of the concatenation used by the round trip. */
  lemma BlockShape(pre: string, prefix: string, tag: string, body: string, post: string)
    ensures pre + prefix + tag + "\n" + body + Fence + post == pre + (prefix + tag + ("\n" + (body + (Fence + post))))
  {
  }

  /** The opening Python fence has no newline in it. */
  lemma PythonFenceOneLine()
    ensures !Contains(PythonFence, "\n")
  {
    assert forall i :: 0 <= i < |PythonFence| ==> PythonFence[i] != '\n';
    NoPatternStart(PythonFence, "", "\n");
  }

  /** A well-formed Python block yields its trimmed interior, ignoring everything after it. */
  lemma ExtractCodeFromPythonBlock(pre: string, body: string, post: string)
    requires !Contains(pre + "```pytho", PythonFence)
    requires !Contains(body + "``", Fence)
    ensures ExtractCode(pre + PythonFence + "\n" + body + Fence + post) == TrimSpace(body)
  {
    PythonBlockFound(pre, body, post);
  }

  /** The Python block of `ExtractCodeFromPythonBlock` is found by the first search. */
  lemma PythonBlockFound(pre: string, body: string, post: string)
    requires !Contains(pre + "```pytho", PythonFence)
    requires !Contains(body + "``", Fence)
    ensures ExtractFencedBlock(pre + PythonFence + "\n" + body + Fence + post, PythonFence) == Some(TrimSpace(body))
  {
    assert PythonFence[..|PythonFence| - 1] == "```pytho";
    PythonFenceOneLine();
    FencedBlockRoundTrip(pre, PythonFence, "", body, post);
    assert pre + PythonFence + "" == pre + PythonFence;
  }

  /** A Python block that is empty yields no code even if the rest of the reply looks like Python. */
  lemma ExtractCodeFromBlankPythonBlock(pre: string, body: string, post: string)
    requires !Contains(pre + "```pytho", PythonFence)
    requires IsBlank(body) && !Contains(body + "``", Fence)
    ensures ExtractCode(pre + PythonFence + "\n" + body + Fence + post) == ""
  {
    ExtractCodeFromPythonBlock(pre, body, post);
  }

  /** Without any Python block, the first plain block (with any tag on its line) yields its interior. */
  lemma ExtractCodeFromPlainBlock(pre: string, tag: string, body: string, post: string)
    requires !Contains(pre + "``", Fence)
    requires !Contains(tag, "\n")
    requires !Contains(body + "``", Fence)
    requires !Contains(pre + Fence + tag + "\n" + body + Fence + post, PythonFence)
    ensures ExtractCode(pre + Fence + tag + "\n" + body + Fence + post) == TrimSpace(body)
  {
    assert Fence[..|Fence| - 1] == "``";
    forall j: nat
      ensures !OccursAt(Fence + tag, "\n", j)
    {
      if j >= 3 {
        assert (Fence + tag)[3..] == tag;
        OccursShift(Fence + tag, 3, "\n", j - 3);
      } else if j + 1 <= |Fence + tag| {
        assert (Fence + tag)[j..j + 1][0] == '`';
      }
    }
    FencedBlockRoundTrip(pre, Fence, tag, body, post);
  }

  /**
   * No block when no newline follows the first occurrence of the prefix: `pre` holds no
   * prefix (not even cut short), and the prefix and the rest of the reply hold no newline.
   */
  lemma NoNewlineNoBlock(pre: string, prefix: string, rest: string)
    requires |prefix| > 0
    requires !Contains(pre + prefix[..|prefix| - 1], prefix)
    requires !Contains(prefix + rest, "\n")
    ensures ExtractFencedBlock(pre + prefix + rest, prefix).None?
  {
    var text := pre + (prefix + rest);
    OpeningFenceFirst(pre, prefix, rest);
    assert text[|pre|..] == prefix + rest;
    assert pre + prefix + rest == text;
  }

  /**
   * No block when no closing fence follows the line of the first occurrence of the
   * prefix: `pre` holds no prefix (not even cut short), the opening line holds no
   * newline, and the text after it holds no fence.
   */
  lemma UnclosedFenceNoBlock(pre: string, prefix: string, line: string, rest: string)
    requires |prefix| > 0
    requires !Contains(pre + prefix[..|prefix| - 1], prefix)
    requires !Contains(prefix + line, "\n")
    requires !Contains(rest, Fence)
    ensures ExtractFencedBlock(pre + prefix + line + "\n" + rest, prefix).None?
  {
    var text := pre + (prefix + line + ("\n" + rest));
    OpeningFenceFirst(pre, prefix, line + ("\n" + rest));
    assert prefix + (line + ("\n" + rest)) == prefix + line + ("\n" + rest);
    OpeningLineEnd(pre, prefix + line, rest);
    assert text[|pre| + |prefix + line| + 1..] == rest;
    assert pre + prefix + line + "\n" + rest == text;
  }

  /** A first fence whose line is never followed by a closing fence falls through to the plain-text heuristic. */
  lemma ExtractCodeUnclosedFence(pre: string, line: string, rest: string)
    requires !Contains(pre + "``", Fence)
    requires !Contains(Fence + line, "\n")
    requires !Contains(rest, Fence)
    ensures ExtractCode(pre + Fence + line + "\n" + rest) == Fallback(pre + Fence + line + "\n" + rest)
  {
    assert Fence[..|Fence| - 1] == "``";
    UnclosedFenceNoBlock(pre, Fence, line, rest);
    ExtractCodeShape(pre + Fence + line + "\n" + rest);
  }

  /** The user prompt holds the sample verbatim, between a fence line and a closing fence line. */
  lemma UserPromptEmbedsSample(sample: string)
    ensures var p := BuildUserPrompt(sample); var k := |UserPromptIntro| + 4;
      |p| == k + |sample| + 4 && p[k - 4..k] == Fence + "\n" && p[k..k + |sample|] == sample
      && p[k + |sample|..] == "\n" + Fence
  {
    var p := BuildUserPrompt(sample);
    var k := |UserPromptIntro| + 4;
    assert p == UserPromptIntro + (Fence + "\n") + sample + ("\n" + Fence);
  }

  /**
   * `Analyze`: a blank sample is refused before the model is consulted; otherwise the
   * model sees exactly the system prompt and the user prompt, its failure is passed on,
   * and a reply without extractable code is an error.
   */
  function Analyze(client: LLMClient, sample: string): (r: Result<string>)
    ensures IsBlank(sample) ==> r == Err(ErrEmptySample)
    ensures !IsBlank(sample) ==>
      var reply := client.generate([SchemaMessage(SystemRole, SystemPrompt), SchemaMessage(UserRole, BuildUserPrompt(sample))]);
      && (reply.Err? ==> r == Err("LLM generate failed: " + reply.error))
      && (reply.Ok? && ExtractCode(reply.value) == "" ==> r == Err(ErrNoCode))
      && (reply.Ok? && ExtractCode(reply.value) != "" ==> r == Ok(ExtractCode(reply.value)))
    ensures r.Ok? ==> r.value != "" && IsTrimmed(r.value)
  {
    if TrimSpace(sample) == "" then Err(ErrEmptySample)
    else
      var msgs := AnalysisMessages(sample);
      assert ConvertMessages(msgs) == [SchemaMessage(SystemRole, SystemPrompt), SchemaMessage(UserRole, BuildUserPrompt(sample))];
      match ChatReply(client, msgs)
      case Err(e) => Err(e)
      case Ok(resp) =>
        ExtractCodeShape(resp);
        var code := ExtractCode(resp);
        if code == "" then Err(ErrNoCode) else Ok(code)
  }
}
