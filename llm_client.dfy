/**
 * The LLM gateway (`internal/agent/llm_client.go`): configuration checks, the
 * empty-conversation guard, and the one-for-one conversion of messages into the chat
 * library's message type. The remote model itself is an oracle: a function from the
 * converted conversation to a reply text or a failure.
 */
module LlmClient {
  import opened Wrappers
  import opened Model

  /** The chat library's role tags. */
  datatype RoleType = SystemRole | UserRole | AssistantRole

  /** The chat library's message. */
  datatype SchemaMessage = SchemaMessage(role: RoleType, content: string)

  /** The remote model's generate call. */
  type Generator = seq<SchemaMessage> -> Result<string>

  /** A constructed client: it holds the chat model built from a complete configuration. */
  datatype LLMClient = LLMClient(generate: Generator)

  const ErrEmptyBaseURL := "LLM BaseURL must not be empty"
  const ErrEmptyAPIKey := "LLM APIKey must not be empty"
  const ErrEmptyModelName := "LLM ModelName must not be empty"
  const ErrEmptyMessages := "messages must not be empty"
  const ErrChatModel := "failed to create Eino ChatModel: "
  const ErrGenerate := "LLM generate failed: "

  /**
   * Builds a client. The three fields are checked in order, before the chat library's
   * constructor `connect` is consulted; a failure of `connect` is reported wrapped.
   */
  function NewLLMClient(cfg: LLMConfig, connect: LLMConfig -> Result<Generator>): (r: Result<LLMClient>)
    ensures r.Ok? <==> cfg.baseURL != "" && cfg.apiKey != "" && cfg.modelName != "" && connect(cfg).Ok?
    ensures cfg.baseURL == "" ==> r.Err? && r.error == ErrEmptyBaseURL
    ensures cfg.baseURL != "" && cfg.apiKey == "" ==> r.Err? && r.error == ErrEmptyAPIKey
    ensures cfg.baseURL != "" && cfg.apiKey != "" && cfg.modelName == "" ==> r.Err? && r.error == ErrEmptyModelName
    ensures r.Ok? ==> forall msgs :: r.value.generate(msgs) == connect(cfg).value(msgs)
  {
    if cfg.baseURL == "" then Err(ErrEmptyBaseURL)
    else if cfg.apiKey == "" then Err(ErrEmptyAPIKey)
    else if cfg.modelName == "" then Err(ErrEmptyModelName)
    else
      match connect(cfg)
      case Err(e) => Err(ErrChatModel + e)
      case Ok(g) => Ok(LLMClient(g))
  }

  /** Maps a role string to the library's role; every unknown role becomes the user role. */
  function ConvertRole(role: string): (r: RoleType)
    ensures r == SystemRole <==> role == "system"
    ensures r == AssistantRole <==> role == "assistant"
    ensures r == UserRole <==> role != "system" && role != "assistant"
  {
    match role
    case "system" => SystemRole
    case "assistant" => AssistantRole
    case "user" => UserRole
    case _ => UserRole
  }

  /** Converts a conversation message by message: same length, same order, same content. */
  function ConvertMessages(msgs: seq<Message>): (r: seq<SchemaMessage>)
    ensures |r| == |msgs|
    ensures forall i :: 0 <= i < |msgs| ==> r[i].content == msgs[i].content
    ensures forall i :: 0 <= i < |msgs| ==> r[i].role == ConvertRole(msgs[i].role)
  {
    if msgs == [] then []
    else [SchemaMessage(ConvertRole(msgs[0].role), msgs[0].content)] + ConvertMessages(msgs[1..])
  }

  /**
   * The reply of `Chat`: an empty conversation fails without consulting the model;
   * otherwise the model sees the converted conversation and its reply comes back unchanged.
   */
  function ChatReply(client: LLMClient, msgs: seq<Message>): (r: Result<string>)
    ensures |msgs| == 0 ==> r == Err(ErrEmptyMessages)
    ensures |msgs| > 0 ==> var reply := client.generate(ConvertMessages(msgs));
      (reply.Ok? ==> r == reply) && (reply.Err? ==> r == Err(ErrGenerate + reply.error))
  {
    if |msgs| == 0 then Err(ErrEmptyMessages)
    else
      match client.generate(ConvertMessages(msgs))
      case Err(e) => Err(ErrGenerate + e)
      case Ok(text) => Ok(text)
  }

  /** `Chat`: fills the library's message array one message at a time, then asks the model. */
  method Chat(client: LLMClient, msgs: seq<Message>) returns (r: Result<string>)
    ensures r == ChatReply(client, msgs)
  {
    if |msgs| == 0 {
      return Err(ErrEmptyMessages);
    }
    var schemaMessages := new SchemaMessage[|msgs|];
    for i := 0 to |msgs|
      invariant forall k :: 0 <= k < i ==> schemaMessages[k] == SchemaMessage(ConvertRole(msgs[k].role), msgs[k].content)
    {
      schemaMessages[i] := SchemaMessage(ConvertRole(msgs[i].role), msgs[i].content);
    }
    assert schemaMessages[..] == ConvertMessages(msgs);
    var resp := client.generate(schemaMessages[..]);
    if resp.Err? {
      return Err(ErrGenerate + resp.error);
    }
    return Ok(resp.value);
  }
}
