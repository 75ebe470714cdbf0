/** The values the chat page handles: transcript rows, backend events and the page's own state. */
module ChatTypes {
  import opened Base

  datatype ThreadId = ThreadId(uuid: string)
  datatype MessageId = MessageId(uuid: string)

  datatype Role = User | Assistant | System | ToolCall | ToolResult
  datatype Finish = Complete | Cancelled | Error | ToolLimitReached
  datatype Mode = Standard | Ungated | GatedPermissive

  /** One transcript row. The creation time is left out: it is a clock reading nothing here uses. */
  datatype Row = Row(
    id: MessageId,
    threadId: ThreadId,
    parentId: Option<MessageId>,
    role: Role,
    content: string,
    modelId: Option<string>,
    promptTokens: Option<int>,
    completionTokens: Option<int>,
    finishReason: Option<Finish>,
    toolName: Option<string>,
    toolCallId: Option<string>,
    toolInput: Option<string>,
    toolIsError: Option<bool>,
    toolSource: Option<string>,
    autonomyMode: Option<Mode>)

  datatype CompleteEvent = CompleteEvent(
    messageId: MessageId, threadId: ThreadId, promptTokens: Option<int>, completionTokens: Option<int>)

  datatype ErrorEvent = ErrorEvent(messageId: MessageId, threadId: ThreadId, reason: string, kind: Option<string>)

  datatype ToolEvent =
    | Call(messageId: MessageId, threadId: ThreadId, toolName: string, toolInput: string, toolSource: string)
    | Result(messageId: MessageId, threadId: ThreadId, toolCallId: string, content: string, isError: bool)

  /** The one terminal event of a turn; without an assistant id when nothing was written. */
  datatype TurnEvent = TurnEvent(threadId: ThreadId, assistantId: Option<MessageId>, finish: Finish)

  datatype PromptKind = Approval | Choice
  datatype Prompt = Prompt(kind: PromptKind, requestId: string, detail: string)

  /** What one `send_message` call carries; kept unchanged for a retry. */
  datatype Request = Request(
    threadId: Option<ThreadId>,
    content: string,
    key: string,
    autonomyMode: Option<Mode>,
    reasoningOption: Option<string>,
    attachments: seq<string>)

  /** The backend's answer to an accepted `send_message` call. */
  datatype Accepted = Accepted(threadId: ThreadId, userId: MessageId, assistantId: MessageId)

  /** What the error banner shows: a reason as sent, a failure named by its kind, or a thrown error. */
  datatype Fault = Reason(text: string) | Kind(name: string) | Thrown(text: string)

  /** Stream events held for a message that is not the active stream. */
  datatype Held = Held(
    tokens: string,
    reasoning: string,
    retryReset: bool,
    complete: Option<CompleteEvent>,
    error: Option<ErrorEvent>)

  const NOTHING_HELD := Held("", "", false, None, None)

  /** The shared refs and maps of the chat page. */
  datatype Page = Page(
    input: string,
    attachments: seq<string>,
    busy: bool,
    setup: bool,
    pendingSend: Option<Request>,
    lastError: Option<Fault>,
    active: Option<ThreadId>,
    messages: map<ThreadId, seq<Row>>,
    streamingMessage: Option<MessageId>,
    streamingThread: Option<ThreadId>,
    buffer: string,
    reasoning: map<MessageId, string>,
    retrying: Option<MessageId>,
    prompts: seq<Prompt>,
    parked: map<ThreadId, seq<Prompt>>,
    heldStream: map<MessageId, Held>,
    heldTools: map<ThreadId, seq<ToolEvent>>,
    heldTurns: map<ThreadId, TurnEvent>)

  /** The page as `ChatApp.vue` creates it. */
  const EMPTY_PAGE := Page(
    "", [], false, false, None, None, None, map[], None, None, "", map[], None, [], map[], map[], map[], map[])
}
