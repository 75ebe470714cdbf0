/**
 * The chat page as its composables run it: shared refs and maps, changed in place stretch by stretch.
 * Each method is one stretch between two awaits and brings the page to the state `PageSteps` gives.
 */
module ChatPage {
  import opened Base
  import opened ChatTypes
  import opened Rows
  import opened PageSteps
  import opened TurnProtocol

  /** What holds of a page at rest between two stretches of a sound run. */
  ghost predicate PageInv(p: Page) {
    Flags(p) && DistinctRows(p)
  }

  class ChatPage {
    var input: string
    var attachments: seq<string>
    var busy: bool
    var setup: bool
    var pendingSend: Option<Request>
    var lastError: Option<Fault>
    var active: Option<ThreadId>
    var messages: map<ThreadId, seq<Row>>
    var streamingMessage: Option<MessageId>
    var streamingThread: Option<ThreadId>
    var buffer: string
    var reasoning: map<MessageId, string>
    var retrying: Option<MessageId>
    var prompts: seq<Prompt>
    var parked: map<ThreadId, seq<Prompt>>
    var heldStream: map<MessageId, Held>
    var heldTools: map<ThreadId, seq<ToolEvent>>
    var heldTurns: map<ThreadId, TurnEvent>

    function View(): Page
      reads this
    {
      Page(input, attachments, busy, setup, pendingSend, lastError, active, messages, streamingMessage,
           streamingThread, buffer, reasoning, retrying, prompts, parked, heldStream, heldTools, heldTurns)
    }

    ghost predicate Valid()
      reads this
    {
      PageInv(View())
    }

    constructor ()
      ensures Valid() && View() == EMPTY_PAGE
    {
      input, attachments, busy, setup, pendingSend, lastError := "", [], false, false, None, None;
      active, messages, streamingMessage, streamingThread := None, map[], None, None;
      buffer, reasoning, retrying, prompts, parked := "", map[], None, [], map[];
      heldStream, heldTools, heldTurns := map[], map[], map[];
    }

    // ---- useChatTranscript ----------------------------------------------------------------------

    method HandleToken(id: MessageId, delta: string, text: string)
      modifies this`heldStream, this`retrying, this`buffer, this`messages, this`reasoning
      ensures View() == OnToken(old(View()), id, delta, text)
      ensures old(Valid()) ==> Valid()
    {
      EventsKeepInv(View(), id, delta, text);
      if streamingMessage != Some(id) || streamingThread.None? {
        var held := GetOr(heldStream, id, NOTHING_HELD);
        heldStream := heldStream[id := held.(tokens := held.tokens + delta, reasoning := held.reasoning + text)];
        assert View() == OnToken(old(View()), id, delta, text);
      } else {
        ApplyToken(streamingThread.value, id, delta, text);
      }
    }

    method ApplyToken(thread: ThreadId, id: MessageId, delta: string, text: string)
      requires streamingMessage == Some(id) && streamingThread == Some(thread)
      modifies this`retrying, this`buffer, this`messages, this`reasoning
      ensures View() == OnToken(old(View()), id, delta, text)
    {
      if retrying == Some(id) {
        retrying := None;
      }
      AppendDelta(thread, id, delta);
      if text != "" {
        reasoning := reasoning[id := GetOr(reasoning, id, "") + text];
      }
    }

    method AppendDelta(thread: ThreadId, id: MessageId, delta: string)
      modifies this`buffer, this`messages
      ensures View() == old(View()).(buffer := old(buffer) + delta, messages := AppendText(old(messages), thread, id, delta))
    {
      if delta != "" {
        buffer := buffer + delta;
        AppendToRow(thread, id, delta);
      }
    }

    method AppendToRow(thread: ThreadId, id: MessageId, delta: string)
      requires delta != ""
      modifies this`messages
      ensures messages == AppendText(old(messages), thread, id, delta)
    {
      var list := GetOr(messages, thread, []);
      var idx := IndexOf(list, id);
      if idx != -1 {
        list := list[idx := list[idx].(content := list[idx].content + delta)];
        messages := messages[thread := list];
      }
    }

    method HandleRetry(id: MessageId)
      modifies this`heldStream, this`retrying, this`buffer, this`messages, this`reasoning
      ensures View() == OnRetry(old(View()), id)
      ensures old(Valid()) ==> Valid()
    {
      EventsKeepInv(View(), id, "", "");
      if streamingMessage != Some(id) || streamingThread.None? {
        var held := GetOr(heldStream, id, NOTHING_HELD);
        heldStream := heldStream[id := held.(tokens := "", reasoning := "", retryReset := true)];
        assert View() == OnRetry(old(View()), id);
        return;
      }
      StartOver(streamingThread.value, id);
    }

    method StartOver(thread: ThreadId, id: MessageId)
      modifies this`retrying, this`buffer, this`messages, this`reasoning
      ensures buffer == "" && reasoning == old(reasoning)[id := ""] && retrying == Some(id)
      ensures messages == ClearText(old(messages), thread, id)
    {
      buffer := "";
      reasoning := reasoning[id := ""];
      var list := GetOr(messages, thread, []);
      var idx := IndexOf(list, id);
      if idx != -1 {
        messages := messages[thread := list[idx := list[idx].(content := "")]];
      }
      retrying := Some(id);
    }

    method HandleComplete(e: CompleteEvent)
      modifies this`heldStream, this`messages
      ensures View() == OnComplete(old(View()), e)
      ensures old(Valid()) ==> Valid()
    {
      CompleteKeepsInv(View(), e);
      if streamingMessage != Some(e.messageId) {
        var held := GetOr(heldStream, e.messageId, NOTHING_HELD);
        heldStream := heldStream[e.messageId := held.(complete := Some(e), error := None)];
        return;
      }
      var list := GetOr(messages, e.threadId, []);
      var idx := IndexOf(list, e.messageId);
      if idx != -1 {
        var row := list[idx].(promptTokens := e.promptTokens, completionTokens := e.completionTokens);
        messages := messages[e.threadId := list[idx := row]];
      }
    }

    method HandleError(e: ErrorEvent)
      modifies this`heldStream, this`messages, this`lastError
      ensures View() == OnError(old(View()), e)
      ensures old(Valid()) ==> Valid()
    {
      ErrorKeepsInv(View(), e);
      if streamingMessage != Some(e.messageId) {
        var held := GetOr(heldStream, e.messageId, NOTHING_HELD);
        heldStream := heldStream[e.messageId := held.(error := Some(e), complete := None)];
        return;
      }
      ApplyError(e);
    }

    method ApplyError(e: ErrorEvent)
      modifies this`messages, this`lastError
      ensures lastError == Some(FaultOf(e)) && messages == FinishRow(old(messages), e.threadId, e.messageId, Error)
    {
      lastError := Some(if e.kind.None? then Reason(e.reason) else Kind(e.kind.value));
      var list := GetOr(messages, e.threadId, []);
      var idx := IndexOf(list, e.messageId);
      if idx != -1 {
        messages := messages[e.threadId := list[idx := list[idx].(finishReason := Some(Error))]];
      }
    }

    /** `handleToolCall` and `handleToolResult`. */
    method HandleTool(e: ToolEvent)
      modifies this`heldTools, this`messages
      ensures View() == OnTool(old(View()), e)
      ensures old(Valid()) ==> Valid()
    {
      ToolKeepsInv(View(), e);
      if active != Some(e.threadId) || setup {
        heldTools := heldTools[e.threadId := GetOr(heldTools, e.threadId, []) + [e]];
        return;
      }
      AddToolRow(e.threadId, e);
    }

    method AddToolRow(thread: ThreadId, e: ToolEvent)
      modifies this`messages
      ensures messages == AddRows(old(messages), thread, [e])
    {
      var list := GetOr(messages, thread, []);
      AddToolsOne(list, e);
      if IndexOf(list, e.messageId) >= 0 {
        return;
      }
      list := list + [ToolRow(e)];
      messages := messages[thread := list];
    }

    /** Replays the tool events held for `thread`, in the order in which they came. */
    method DrainTools(thread: ThreadId)
      modifies this`messages, this`heldTools
      ensures messages == AddRows(old(messages), thread, GetOr(old(heldTools), thread, []))
      ensures heldTools == old(heldTools) - {thread}
    {
      if thread !in heldTools {
        assert heldTools - {thread} == heldTools;
        return;
      }
      var queued := heldTools[thread];
      heldTools := heldTools - {thread};
      ghost var before := messages;
      for i := 0 to |queued|
        invariant heldTools == old(heldTools) - {thread}
        invariant messages == AddRows(before, thread, queued[..i])
      {
        assert queued[..i + 1] == queued[..i] + [queued[i]];
        AddRowsSnoc(before, thread, queued[..i], queued[i]);
        AddToolRow(thread, queued[i]);
      }
      assert queued[..|queued|] == queued;
    }

    method ReplayTools(thread: ThreadId)
      modifies this`messages, this`heldTools
      ensures View() == RestoreTools(old(View()), thread)
    {
      DrainTools(thread);
    }

    method HandlePrompt(thread: ThreadId, prompt: Prompt)
      modifies this`parked, this`prompts
      ensures View() == OnPrompt(old(View()), thread, prompt)
      ensures old(Valid()) ==> Valid()
    {
      PromptKeepsInv(View(), thread, prompt);
      if active != Some(thread) {
        parked := parked[thread := GetOr(parked, thread, []) + [prompt]];
        assert View() == OnPrompt(old(View()), thread, prompt);
      } else if !Asks(prompts, prompt.requestId) {
        prompts := prompts + [prompt];
        assert View() == OnPrompt(old(View()), thread, prompt);
      } else {
        assert View() == OnPrompt(old(View()), thread, prompt);
      }
    }

    /** Returns whether the turn ended here, so that its reload is to follow. */
    method HandleTurnComplete(e: TurnEvent) returns (ends: bool)
      modifies this`heldTurns, this`parked, this`prompts, this`messages
      ensures View() == OnTurnComplete(old(View()), e)
      ensures ends == Ends(old(View()), e)
      ensures old(Valid()) ==> Valid()
    {
      TurnCompleteKeepsInv(View(), e);
      if setup {
        heldTurns := heldTurns[e.threadId := e];
        return false;
      }
      if streamingThread != Some(e.threadId) {
        return false;
      }
      if e.assistantId.Some? && streamingMessage != e.assistantId {
        return false;
      }
      ApplyTurnComplete(e);
      return true;
    }

    method ApplyTurnComplete(e: TurnEvent)
      modifies this`parked, this`prompts, this`messages
      ensures View() == BeginClose(old(View()), e)
    {
      parked := parked - {e.threadId};
      if active == Some(e.threadId) {
        prompts := [];
      }
      if e.assistantId.Some? {
        MarkFinished(e.threadId, e.assistantId.value, e.finish);
      }
    }

    method MarkFinished(thread: ThreadId, id: MessageId, finish: Finish)
      modifies this`messages
      ensures messages == FinishRow(old(messages), thread, id, finish)
    {
      var list := GetOr(messages, thread, []);
      var idx := IndexOf(list, id);
      if idx != -1 {
        messages := messages[thread := list[idx := list[idx].(finishReason := Some(finish))]];
      }
    }

    /** `applyTurnComplete` after its list arrived. */
    method ReloadedAfterTurn(thread: ThreadId, list: seq<Row>)
      modifies this`messages, this`heldTools
      ensures View() == CloseLoaded(old(View()), thread, list)
      ensures old(Valid()) && Distinct(Ids(list)) ==> Valid()
    {
      LoadedKeepsInv(View(), thread, list);
      messages := messages[thread := list];
      heldTools := heldTools - {thread};
    }

    /** The end of `applyTurnComplete`, with what its `catch` saw. */
    method SettleTurn(caught: Option<Fault>)
      modifies this`lastError, this`streamingMessage, this`streamingThread, this`buffer, this`retrying, this`busy
      ensures View() == CloseSettled(old(View()), caught)
      ensures old(Valid()) && !old(setup) ==> Valid()
    {
      SettledKeepsInv(View(), caught);
      if caught.Some? {
        lastError := caught;
      }
      StopStream();
    }

    method StopStream()
      modifies this`streamingMessage, this`streamingThread, this`buffer, this`retrying, this`busy
      ensures streamingMessage == None && streamingThread == None && buffer == "" && retrying == None && !busy
    {
      streamingMessage := None;
      streamingThread := None;
      buffer := "";
      retrying := None;
      busy := false;
    }

    // ---- useComposer ----------------------------------------------------------------------------

    /** `send` up to its call of the backend; returns the request it sends, if it sends one. */
    method BeginSend(retryPending: bool, sendDisabled: bool, key: string, mode: Option<Mode>, option: Option<string>)
      returns (sent: Option<Request>)
      modifies this`input, this`attachments, this`busy, this`lastError, this`pendingSend, this`setup
      ensures sent.Some? <==> SendStarts(old(View()), retryPending, sendDisabled)
      ensures sent.Some? ==> sent.value == RequestOf(old(View()), retryPending, key, mode, option)
      ensures View() == if sent.Some? then SendStart(old(View()), retryPending) else old(View())
      ensures old(Valid()) && (old(busy) ==> sendDisabled) ==> Valid()
    {
      SendKeepsInv(View(), retryPending);
      var retry := if retryPending then pendingSend else None;
      var content := if retry.Some? then retry.value.content else Trim(input);
      assert content == Draft(View(), retryPending);
      if content == "" || sendDisabled {
        return None;
      }
      var request := if retry.Some? then retry.value else Request(active, content, key, mode, option, attachments);
      assert request == RequestOf(View(), retryPending, key, mode, option);
      EnterSetup(retry.Some?);
      return Some(request);
    }

    method EnterSetup(retry: bool)
      modifies this`input, this`attachments, this`busy, this`lastError, this`pendingSend, this`setup
      ensures input == (if retry then old(input) else "") && attachments == (if retry then old(attachments) else [])
      ensures busy && setup && lastError == None && pendingSend == None
    {
      if !retry {
        input := "";
      }
      busy := true;
      lastError := None;
      pendingSend := None;
      if !retry {
        attachments := [];
      }
      setup := true;
    }

    /** The response arrived: its thread is opened, its parked prompts are shown before the others. */
    method AdoptThread(result: Accepted)
      modifies this`active, this`prompts, this`parked
      ensures View() == Adopt(old(View()), result)
      ensures old(Valid()) ==> Valid()
    {
      AdoptKeepsInv(View(), result);
      active := Some(result.threadId);
      ShowParked(result.threadId);
    }

    method ShowParked(thread: ThreadId)
      modifies this`prompts, this`parked
      ensures View() == UnparkPrompts(old(View()), thread)
    {
      if thread in parked {
        prompts := parked[thread] + prompts;
        parked := parked - {thread};
      } else {
        assert [] + prompts == prompts && parked - {thread} == parked;
      }
    }

    /** Placeholders, stream, and everything held for the turn; returns whether the turn ended at once. */
    method SetUpTurn(result: Accepted, request: Request, modelId: Option<string>) returns (ends: bool)
      modifies this
      ensures View() == Seed(old(View()), result, request, modelId)
      ensures ends == HeldTurnEnds(old(View()), result)
      ensures old(Valid()) && old(busy) ==> Valid()
    {
      SeedKeepsInv(View(), result, request, modelId);
      ghost var start := View();
      SeedPlaceholders(result, request, modelId);
      ghost var seeded := View();
      ReplayTools(result.threadId);
      DrainStream(result.assistantId);
      ends := DrainTurn(result);
      assert seeded.heldTurns == start.heldTurns;
    }

    method SeedPlaceholders(result: Accepted, request: Request, modelId: Option<string>)
      modifies this`messages, this`setup, this`streamingMessage, this`streamingThread, this`buffer, this`retrying, this`reasoning
      ensures View() == SeedStream(old(View()), result, request.content, modelId, request.autonomyMode)
    {
      var list := Placeholders(GetOr(messages, result.threadId, []), result, request, modelId);
      messages := messages[result.threadId := list];
      StartStream(result.threadId, result.assistantId);
    }

    method StartStream(thread: ThreadId, id: MessageId)
      modifies this`setup, this`streamingMessage, this`streamingThread, this`buffer, this`retrying, this`reasoning
      ensures View() == old(View()).(setup := false, streamingMessage := Some(id), streamingThread := Some(thread),
                                     buffer := "", retrying := None, reasoning := old(reasoning)[id := ""])
    {
      setup := false;
      streamingMessage := Some(id);
      streamingThread := Some(thread);
      EmptyStream(id);
    }

    method EmptyStream(id: MessageId)
      modifies this`buffer, this`retrying, this`reasoning
      ensures View() == old(View()).(buffer := "", retrying := None, reasoning := old(reasoning)[id := ""])
    {
      buffer := "";
      retrying := None;
      reasoning := reasoning[id := ""];
    }

    static method Placeholders(rows: seq<Row>, result: Accepted, request: Request, modelId: Option<string>)
      returns (list: seq<Row>)
      ensures list == SeedRows(rows, result, request.content, modelId, request.autonomyMode)
    {
      list := rows;
      if !Has(list, result.userId) {
        list := list + [UserRow(result, request.content)];
      }
      if !Has(list, result.assistantId) {
        list := list + [AssistantRow(result, modelId, request.autonomyMode)];
      }
    }

    method DrainStream(id: MessageId)
      modifies this`heldStream, this`retrying, this`buffer, this`messages, this`reasoning, this`lastError
      ensures View() == RestoreStream(old(View()), id)
    {
      var pending := TakeHeld(id);
      ReplayText(id, pending);
      ReplayOutcome(pending);
    }

    method TakeHeld(id: MessageId) returns (pending: Held)
      modifies this`heldStream, this`buffer, this`reasoning
      ensures pending == HeldFor(old(View()), id)
      ensures heldStream == old(heldStream) - {id}
      ensures buffer == if pending.retryReset then "" else old(buffer)
      ensures reasoning == if pending.retryReset then old(reasoning)[id := ""] else old(reasoning)
    {
      pending := GetOr(heldStream, id, NOTHING_HELD);
      heldStream := heldStream - {id};
      if pending.retryReset {
        buffer := "";
        reasoning := reasoning[id := ""];
      }
    }

    method ReplayText(id: MessageId, pending: Held)
      modifies this`heldStream, this`retrying, this`buffer, this`messages, this`reasoning
      ensures View() == RestoreText(old(View()), id, pending)
    {
      if pending.tokens != "" || pending.reasoning != "" {
        HandleToken(id, pending.tokens, pending.reasoning);
      }
    }

    method ReplayOutcome(pending: Held)
      modifies this`heldStream, this`messages, this`lastError
      ensures View() == RestoreOutcome(old(View()), pending)
    {
      if pending.error.Some? {
        HandleError(pending.error.value);
      } else if pending.complete.Some? {
        HandleComplete(pending.complete.value);
      }
    }

    method DrainTurn(result: Accepted) returns (ends: bool)
      requires !setup && streamingThread == Some(result.threadId) && streamingMessage == Some(result.assistantId)
      modifies this
      ensures View() == RestoreTurn(old(View()), result.threadId)
      ensures ends == HeldTurnEnds(old(View()), result)
    {
      ends := false;
      if result.threadId in heldTurns {
        var completed := heldTurns[result.threadId];
        heldTurns := heldTurns - {result.threadId};
        ends := HandleTurnComplete(completed);
      }
    }

    /** A retry's reload arrived; returns whether the turn is over. */
    method ResumeRetry(result: Accepted, request: Request, modelId: Option<string>, list: seq<Row>) returns (ends: bool)
      modifies this
      ensures View() == RetryReloaded(old(View()), result, request, modelId, list)
      ensures ends == (Finished(list, result.assistantId) || HeldTurnEnds(old(View()), result))
      ensures old(Valid()) && old(busy) && Distinct(Ids(list)) ==> Valid()
    {
      ReloadedKeepsInv(View(), result, request, modelId, list);
      ends := RecoverOrSetUp(result, request, modelId, list);
    }

    method RecoverOrSetUp(result: Accepted, request: Request, modelId: Option<string>, list: seq<Row>)
      returns (ends: bool)
      modifies this
      ensures View() == RetryReloaded(old(View()), result, request, modelId, list)
      ensures ends == (Finished(list, result.assistantId) || HeldTurnEnds(old(View()), result))
    {
      messages := messages[result.threadId := list];
      var idx := IndexOf(list, result.assistantId);
      if idx != -1 && list[idx].finishReason.Some? {
        RecoverTurn(result, list[idx].finishReason.value);
        ends := true;
      } else {
        ends := SetUpTurn(result, request, modelId);
      }
    }

    method RecoverTurn(result: Accepted, finish: Finish)
      modifies this
      ensures View() == Recover(old(View()), result, finish)
    {
      DropHeld(result);
      assert Ends(View(), TurnEvent(result.threadId, Some(result.assistantId), finish));
      var ends := HandleTurnComplete(TurnEvent(result.threadId, Some(result.assistantId), finish));
    }

    /** Names the recovered turn as the active one and forgets what was held for it. */
    method DropHeld(result: Accepted)
      modifies this`streamingMessage, this`streamingThread, this`setup, this`heldStream, this`heldTurns
      ensures !setup && streamingMessage == Some(result.assistantId) && streamingThread == Some(result.threadId)
      ensures heldStream == old(heldStream) - {result.assistantId}
      ensures heldTurns == old(heldTurns) - {result.threadId}
    {
      streamingMessage := Some(result.assistantId);
      streamingThread := Some(result.threadId);
      setup := false;
      heldStream := heldStream - {result.assistantId};
      heldTurns := heldTurns - {result.threadId};
    }

    method FailSend(request: Request, fault: Fault)
      modifies this`pendingSend, this`lastError, this`busy, this`setup
      ensures View() == SendFailed(old(View()), request, fault)
      ensures old(Valid()) && old(setup) ==> Valid()
    {
      FailedKeepsInv(View(), request, fault);
      pendingSend := Some(request);
      lastError := Some(fault);
      busy := false;
      setup := false;
    }

    method StartNewChat(modelLoading: bool)
      modifies this`parked, this`prompts, this`active, this`input, this`attachments, this`streamingMessage
      modifies this`streamingThread, this`buffer, this`reasoning, this`heldStream
      ensures View() == NewChat(old(View()), modelLoading)
      ensures old(Valid()) ==> Valid()
    {
      NewKeepsInv(View(), modelLoading);
      if busy || modelLoading {
        assert View() == NewChat(old(View()), modelLoading);
        return;
      }
      ParkShown();
      Blank();
    }

    method Blank()
      modifies this`active, this`input, this`attachments, this`streamingMessage, this`streamingThread, this`buffer
      modifies this`reasoning, this`heldStream
      ensures active == None && input == "" && attachments == [] && streamingMessage == None
      ensures streamingThread == None && buffer == "" && reasoning == map[] && heldStream == map[]
    {
      active := None;
      input := "";
      attachments := [];
      streamingMessage := None;
      streamingThread := None;
      buffer := "";
      reasoning := map[];
      heldStream := map[];
    }

    method ParkShown()
      modifies this`parked, this`prompts
      ensures View() == ParkPrompts(old(View()))
    {
      if active.Some? && prompts != [] {
        parked := parked[active.value := GetOr(parked, active.value, []) + prompts];
        prompts := [];
      }
    }

    // ---- useThreadSidebar and useChatTab ----------------------------------------------------------

    /** `selectThread`; returns whether it has to wait for the thread's list. */
    method SelectThread(thread: ThreadId) returns (loads: bool)
      modifies this
      ensures View() == Select(old(View()), thread)
      ensures loads <==> thread !in old(messages)
      ensures old(Valid()) ==> Valid()
    {
      SelectKeepsInv(View(), thread);
      if active != Some(thread) {
        ParkShown();
      }
      active := Some(thread);
      if thread !in messages {
        return true;
      }
      ShowThread(thread);
      return false;
    }

    method ShowThread(thread: ThreadId)
      modifies this`parked, this`prompts, this`messages, this`heldTools
      ensures View() == ShowSelected(old(View()), thread)
    {
      ShowParked(thread);
      ReplayTools(thread);
    }

    method ThreadLoaded(thread: ThreadId, list: seq<Row>, latest: bool)
      modifies this
      ensures View() == SelectLoaded(old(View()), thread, list, latest)
      ensures old(Valid()) && Distinct(Ids(list)) ==> Valid()
    {
      OpenedKeepsInv(View(), thread, list, latest);
      messages := messages[thread := list];
      if !latest || active != Some(thread) {
        return;
      }
      ShowThread(thread);
    }

    /** One list of `refreshLoadedMessages`. */
    method RefreshList(thread: ThreadId, list: seq<Row>)
      modifies this`messages
      ensures View() == ListRefreshed(old(View()), thread, list)
    {
      if streamingThread == Some(thread) {
        return;
      }
      messages := messages[thread := list];
    }

    method Report(fault: Fault)
      modifies this`lastError
      ensures View() == Reported(old(View()), fault)
    {
      lastError := Some(fault);
    }

    method Compose(text: string, files: seq<string>)
      modifies this`input, this`attachments
      ensures View() == old(View()).(input := text, attachments := files)
    {
      input, attachments := text, files;
    }

    method Answered(requestId: string)
      modifies this`prompts
      ensures View() == OnAnswered(old(View()), requestId)
      ensures old(Valid()) ==> Valid()
    {
      AnsweredKeepsInv(View(), requestId);
      var kept := FilterPrompts(prompts, requestId);
      prompts := kept;
    }
  }

  // ---- what the stretches keep ------------------------------------------------------------------

  lemma EventsKeepInv(p: Page, id: MessageId, delta: string, text: string)
    ensures PageInv(p) ==> PageInv(OnToken(p, id, delta, text)) && PageInv(OnRetry(p, id))
  {
    TokenKeeps(p, id, delta, text);
    RetryKeeps(p, id);
    if PageInv(p) {
      SameIdsKeepsDistinct(p, OnToken(p, id, delta, text));
      SameIdsKeepsDistinct(p, OnRetry(p, id));
    }
  }

  lemma CompleteKeepsInv(p: Page, e: CompleteEvent)
    ensures PageInv(p) ==> PageInv(OnComplete(p, e))
  {
    CompleteKeeps(p, e);
    if PageInv(p) {
      SameIdsKeepsDistinct(p, OnComplete(p, e));
    }
  }

  lemma ErrorKeepsInv(p: Page, e: ErrorEvent)
    ensures PageInv(p) ==> PageInv(OnError(p, e))
  {
    ErrorKeeps(p, e);
    if PageInv(p) {
      SameIdsKeepsDistinct(p, OnError(p, e));
    }
  }

  lemma ToolKeepsInv(p: Page, e: ToolEvent)
    ensures PageInv(p) ==> PageInv(OnTool(p, e))
  {
    if PageInv(p) {
      AddRowsKeepsDistinct(p, e.threadId, [e]);
      var q := OnTool(p, e);
      assert SameTurn(p, q) && DistinctRows(q);
    }
  }

  lemma PromptKeepsInv(p: Page, thread: ThreadId, prompt: Prompt)
    ensures PageInv(p) ==> PageInv(OnPrompt(p, thread, prompt))
  {
    var q := OnPrompt(p, thread, prompt);
    assert SameTurn(p, q) && q.messages == p.messages;
  }

  lemma AnsweredKeepsInv(p: Page, requestId: string)
    ensures PageInv(p) ==> PageInv(OnAnswered(p, requestId))
  {
  }

  lemma TurnCompleteKeepsInv(p: Page, e: TurnEvent)
    ensures PageInv(p) ==> PageInv(OnTurnComplete(p, e))
  {
    BeginCloseKeeps(p, e);
    if PageInv(p) {
      SameIdsKeepsDistinct(p, BeginClose(p, e));
    }
  }

  lemma LoadedKeepsInv(p: Page, thread: ThreadId, list: seq<Row>)
    ensures PageInv(p) && Distinct(Ids(list)) ==> PageInv(CloseLoaded(p, thread, list))
  {
  }

  /** Ending a turn during another one's setup is what breaks the page: see `TurnHazards`. */
  lemma SettledKeepsInv(p: Page, caught: Option<Fault>)
    ensures PageInv(p) ==> (PageInv(CloseSettled(p, caught)) <==> !p.setup)
  {
  }

  lemma SendKeepsInv(p: Page, retryPending: bool)
    ensures PageInv(p) && !p.busy ==> PageInv(SendStart(p, retryPending))
  {
  }

  lemma AdoptKeepsInv(p: Page, r: Accepted)
    ensures PageInv(p) ==> PageInv(Adopt(p, r))
  {
    var q := Adopt(p, r);
    assert SameTurn(p, q) && q.messages == p.messages;
  }

  lemma SeedKeepsInv(p: Page, r: Accepted, request: Request, modelId: Option<string>)
    ensures PageInv(p) && p.busy ==> PageInv(Seed(p, r, request, modelId))
  {
    if PageInv(p) {
      SeedKeeps(p, r, request, modelId);
    }
  }

  lemma ReloadedKeepsInv(p: Page, r: Accepted, request: Request, modelId: Option<string>, list: seq<Row>)
    ensures PageInv(p) && p.busy && Distinct(Ids(list)) ==> PageInv(RetryReloaded(p, r, request, modelId, list))
  {
    if PageInv(p) && Distinct(Ids(list)) {
      RetryReloadedKeeps(p, r, request, modelId, list);
    }
  }

  lemma FailedKeepsInv(p: Page, request: Request, fault: Fault)
    ensures PageInv(p) && p.setup ==> PageInv(SendFailed(p, request, fault))
  {
  }

  lemma NewKeepsInv(p: Page, modelLoading: bool)
    ensures PageInv(p) ==> PageInv(NewChat(p, modelLoading))
  {
    var q := NewChat(p, modelLoading);
    assert q.messages == p.messages && q.busy == p.busy && q.setup == p.setup;
  }

  lemma SelectKeepsInv(p: Page, thread: ThreadId)
    ensures PageInv(p) ==> PageInv(Select(p, thread))
  {
    var moved := MoveTo(p, thread);
    MovedKeeps(p, thread);
    UnparkKeeps(moved, thread);
    RestoreToolsKeeps(UnparkPrompts(moved, thread), thread);
  }

  lemma OpenedKeepsInv(p: Page, thread: ThreadId, list: seq<Row>, latest: bool)
    ensures PageInv(p) && Distinct(Ids(list)) ==> PageInv(SelectLoaded(p, thread, list, latest))
  {
    var loaded := p.(messages := p.messages[thread := list]);
    UnparkKeeps(loaded, thread);
    RestoreToolsKeeps(UnparkPrompts(loaded, thread), thread);
  }

  method FilterPrompts(prompts: seq<Prompt>, requestId: string) returns (kept: seq<Prompt>)
    ensures kept == Without(prompts, requestId)
  {
    kept := [];
    for i := 0 to |prompts|
      invariant kept == Without(prompts[..i], requestId)
    {
      assert prompts[..i + 1] == prompts[..i] + [prompts[i]];
      WithoutSnoc(prompts[..i], prompts[i], requestId);
      if prompts[i].requestId != requestId {
        kept := kept + [prompts[i]];
      }
    }
    assert prompts[..|prompts|] == prompts;
  }

  lemma WithoutSnoc(prompts: seq<Prompt>, last: Prompt, requestId: string)
    ensures Without(prompts + [last], requestId)
            == Without(prompts, requestId) + (if last.requestId == requestId then [] else [last])
    decreases |prompts|
  {
    if prompts != [] {
      assert (prompts + [last])[1..] == prompts[1..] + [last];
      WithoutSnoc(prompts[1..], last, requestId);
    }
  }

  lemma AddRowsSnoc(messages: map<ThreadId, seq<Row>>, thread: ThreadId, events: seq<ToolEvent>, e: ToolEvent)
    ensures AddRows(messages, thread, events + [e]) == AddRows(AddRows(messages, thread, events), thread, [e])
  {
    var list := GetOr(messages, thread, []);
    AddToolsSnoc(list, events, e);
    AddToolsGrows(list, events);
    AddToolsOne(AddTools(list, events), e);
  }

  lemma AddToolsGrows(list: seq<Row>, events: seq<ToolEvent>)
    ensures list <= AddTools(list, events)
    decreases |events|
  {
    if events != [] {
      AddToolsGrows(AddTool(list, events[0]), events[1..]);
    }
  }
}
