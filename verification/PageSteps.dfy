/**
 * What each uninterrupted stretch of the chat page's code does to the page's state. A stretch runs
 * from one `await` to the next; between two of them the environment may run any other one.
 */
module PageSteps {
  import opened Base
  import opened ChatTypes
  import opened Rows

  // ---- rows -------------------------------------------------------------------------------------

  function Find(messages: map<ThreadId, seq<Row>>, thread: ThreadId, id: MessageId): (r: Option<Row>)
    ensures r.Some? ==> thread in messages && Has(messages[thread], id)
                        && r.value == messages[thread][IndexOf(messages[thread], id)]
    ensures r.None? ==> thread !in messages || !Has(messages[thread], id)
  {
    if thread in messages && Has(messages[thread], id)
    then Some(messages[thread][IndexOf(messages[thread], id)])
    else None
  }

  /** Replaces the row of `thread` that has the id of `row`, if there is one. */
  function PutRow(messages: map<ThreadId, seq<Row>>, thread: ThreadId, row: Row): map<ThreadId, seq<Row>> {
    if thread in messages && Has(messages[thread], row.id)
    then messages[thread := Put(messages[thread], row)]
    else messages
  }

  /** Every list keeps its ids in place, and no list appears or disappears. */
  ghost predicate SameIds(a: map<ThreadId, seq<Row>>, b: map<ThreadId, seq<Row>>) {
    a.Keys == b.Keys && forall t :: t in a ==> Ids(a[t]) == Ids(b[t])
  }

  lemma PutRowKeepsIds(messages: map<ThreadId, seq<Row>>, thread: ThreadId, row: Row)
    ensures SameIds(messages, PutRow(messages, thread, row))
  {
    if thread in messages {
      PutKeepsIds(messages[thread], row);
    }
  }

  // ---- streamed text (useChatTranscript.ts:102-168) -----------------------------------------------

  predicate Streams(p: Page, id: MessageId) {
    p.streamingMessage == Some(id) && p.streamingThread.Some?
  }

  function HeldFor(p: Page, id: MessageId): Held {
    GetOr(p.heldStream, id, NOTHING_HELD)
  }

  /** `thread`'s rows with `delta` appended to the content of row `id`, if there is such a row. */
  function AppendText(
    messages: map<ThreadId, seq<Row>>, thread: ThreadId, id: MessageId, delta: string): map<ThreadId, seq<Row>>
  {
    var row := Find(messages, thread, id);
    if delta == "" || row.None? then messages
    else PutRow(messages, thread, row.value.(content := row.value.content + delta))
  }

  /** `thread`'s rows with the content of row `id` emptied. */
  function ClearText(messages: map<ThreadId, seq<Row>>, thread: ThreadId, id: MessageId): map<ThreadId, seq<Row>> {
    var row := Find(messages, thread, id);
    if row.None? then messages else PutRow(messages, thread, row.value.(content := ""))
  }

  /** The row a step's completion names, with the step's token counts. */
  function CountTokens(messages: map<ThreadId, seq<Row>>, e: CompleteEvent): map<ThreadId, seq<Row>> {
    var row := Find(messages, e.threadId, e.messageId);
    if row.None? then messages
    else PutRow(messages, e.threadId,
                row.value.(promptTokens := e.promptTokens, completionTokens := e.completionTokens))
  }

  /** `thread`'s rows with row `id` finished. */
  function FinishRow(
    messages: map<ThreadId, seq<Row>>, thread: ThreadId, id: MessageId, finish: Finish): map<ThreadId, seq<Row>>
  {
    var row := Find(messages, thread, id);
    if row.None? then messages else PutRow(messages, thread, row.value.(finishReason := Some(finish)))
  }

  /** A missing reasoning delta and an empty one are the same to the code; both are "" here. */
  function OnToken(p: Page, id: MessageId, delta: string, reasoning: string): Page {
    var live := Streams(p, id);
    var held := HeldFor(p, id);
    p.(retrying := if live && p.retrying == Some(id) then None else p.retrying,
       buffer := if live then p.buffer + delta else p.buffer,
       messages := if live then AppendText(p.messages, p.streamingThread.value, id, delta) else p.messages,
       reasoning := if live && reasoning != "" then p.reasoning[id := GetOr(p.reasoning, id, "") + reasoning]
                    else p.reasoning,
       heldStream := if live then p.heldStream
                     else p.heldStream[id := held.(tokens := held.tokens + delta,
                                                   reasoning := held.reasoning + reasoning)])
  }

  function OnRetry(p: Page, id: MessageId): Page {
    var live := Streams(p, id);
    p.(buffer := if live then "" else p.buffer,
       reasoning := if live then p.reasoning[id := ""] else p.reasoning,
       messages := if live then ClearText(p.messages, p.streamingThread.value, id) else p.messages,
       retrying := if live then Some(id) else p.retrying,
       heldStream := if live then p.heldStream
                     else p.heldStream[id := HeldFor(p, id).(tokens := "", reasoning := "", retryReset := true)])
  }

  // ---- step completion and errors (useChatTranscript.ts:175-221) ----------------------------------

  function OnComplete(p: Page, e: CompleteEvent): Page {
    var live := p.streamingMessage == Some(e.messageId);
    p.(messages := if live then CountTokens(p.messages, e) else p.messages,
       heldStream := if live then p.heldStream
                     else p.heldStream[e.messageId := HeldFor(p, e.messageId).(complete := Some(e), error := None)])
  }

  function FaultOf(e: ErrorEvent): Fault {
    if e.kind.None? then Reason(e.reason) else Kind(e.kind.value)
  }

  function OnError(p: Page, e: ErrorEvent): Page {
    var live := p.streamingMessage == Some(e.messageId);
    p.(lastError := if live then Some(FaultOf(e)) else p.lastError,
       messages := if live then FinishRow(p.messages, e.threadId, e.messageId, Error) else p.messages,
       heldStream := if live then p.heldStream
                     else p.heldStream[e.messageId := HeldFor(p, e.messageId).(error := Some(e), complete := None)])
  }

  // ---- tool rows (useChatTranscript.ts:231-296) ---------------------------------------------------

  /** `thread`'s rows with a row for each event that has none yet. */
  function AddRows(
    messages: map<ThreadId, seq<Row>>, thread: ThreadId, events: seq<ToolEvent>): map<ThreadId, seq<Row>>
  {
    var list := GetOr(messages, thread, []);
    var added := AddTools(list, events);
    if added == list then messages else messages[thread := added]
  }

  /** Only `thread`'s list grows, and only by the rows it lacks. */
  lemma AddRowsAt(messages: map<ThreadId, seq<Row>>, thread: ThreadId, events: seq<ToolEvent>)
    ensures var q := AddRows(messages, thread, events);
            (forall u :: u != thread ==> (u in q <==> u in messages))
            && (forall u :: u != thread && u in messages ==> q[u] == messages[u])
            && (thread in messages ==> thread in q)
            && GetOr(q, thread, []) == AddTools(GetOr(messages, thread, []), events)
  {
  }

  function OnTool(p: Page, e: ToolEvent): Page {
    var shown := p.active == Some(e.threadId) && !p.setup;
    p.(messages := if shown then AddRows(p.messages, e.threadId, [e]) else p.messages,
       heldTools := if shown then p.heldTools
                    else p.heldTools[e.threadId := GetOr(p.heldTools, e.threadId, []) + [e]])
  }

  /** Takes the tool events held for `thread` and adds their rows, oldest first. */
  function RestoreTools(p: Page, thread: ThreadId): Page {
    p.(heldTools := p.heldTools - {thread},
       messages := AddRows(p.messages, thread, GetOr(p.heldTools, thread, [])))
  }

  // ---- the end of a turn (useChatTranscript.ts:301-329 and 364-377) -------------------------------

  /** The part of `applyTurnComplete` up to its first await. */
  function BeginClose(p: Page, e: TurnEvent): Page {
    p.(parked := p.parked - {e.threadId},
       prompts := if p.active == Some(e.threadId) then [] else p.prompts,
       messages := if e.assistantId.None? then p.messages
                   else FinishRow(p.messages, e.threadId, e.assistantId.value, e.finish))
  }

  /** Whether a turn-complete event ends the turn that is streaming. */
  predicate Ends(p: Page, e: TurnEvent) {
    !p.setup
    && p.streamingThread == Some(e.threadId)
    && (e.assistantId.None? || p.streamingMessage == e.assistantId)
  }

  function OnTurnComplete(p: Page, e: TurnEvent): Page {
    if Ends(p, e) then BeginClose(p, e)
    else p.(heldTurns := if p.setup then p.heldTurns[e.threadId := e] else p.heldTurns)
  }

  /** The reload of the ended turn's thread succeeded. */
  function CloseLoaded(p: Page, thread: ThreadId, list: seq<Row>): Page {
    p.(messages := p.messages[thread := list], heldTools := p.heldTools - {thread})
  }

  /** The `finally` of `applyTurnComplete`; `fault` is what its `catch` reported before. */
  function CloseSettled(p: Page, fault: Option<Fault>): Page {
    p.(lastError := if fault.None? then p.lastError else fault,
       streamingMessage := None, streamingThread := None, buffer := "", retrying := None, busy := false)
  }

  // ---- prompts (useChatTranscript.ts:333-344, useChatTab.ts:75-101) -------------------------------

  predicate Asks(prompts: seq<Prompt>, requestId: string) {
    exists i :: 0 <= i < |prompts| && prompts[i].requestId == requestId
  }

  function OnPrompt(p: Page, thread: ThreadId, prompt: Prompt): Page {
    var shown := p.active == Some(thread);
    p.(parked := if shown then p.parked else p.parked[thread := GetOr(p.parked, thread, []) + [prompt]],
       prompts := if shown && !Asks(p.prompts, prompt.requestId) then p.prompts + [prompt] else p.prompts)
  }

  function Without(prompts: seq<Prompt>, requestId: string): (r: seq<Prompt>)
    ensures !Asks(r, requestId)
    ensures forall x :: x in r <==> x in prompts && x.requestId != requestId
  {
    if prompts == [] then []
    else
      var rest := Without(prompts[1..], requestId);
      assert prompts == [prompts[0]] + prompts[1..];
      if prompts[0].requestId == requestId then rest else [prompts[0]] + rest
  }

  /** The answer was accepted by the backend: `respondToApproval`, `respondToChoice`. */
  function OnAnswered(p: Page, requestId: string): Page {
    p.(prompts := Without(p.prompts, requestId))
  }

  /** Shows the prompts parked for `thread`, before those already shown. */
  function UnparkPrompts(p: Page, thread: ThreadId): Page {
    p.(prompts := GetOr(p.parked, thread, []) + p.prompts, parked := p.parked - {thread})
  }

  /** Parks the shown prompts under the thread they are shown for. */
  function ParkPrompts(p: Page): Page {
    p.(parked := if p.active.None? || p.prompts == [] then p.parked
                 else p.parked[p.active.value := GetOr(p.parked, p.active.value, []) + p.prompts],
       prompts := if p.active.None? then p.prompts else [])
  }

  // ---- sending (useComposer.ts:83-234) ------------------------------------------------------------

  /** What ECMAScript's `String.prototype.trim` strips. */
  predicate IsBlank(c: char) {
    c == ' ' || '\t' <= c <= '\r' || c == '\U{00A0}' || c == '\U{1680}' || '\U{2000}' <= c <= '\U{200A}'
    || c == '\U{2028}' || c == '\U{2029}' || c == '\U{202F}' || c == '\U{205F}' || c == '\U{3000}' || c == '\U{FEFF}'
  }

  function Trim(s: string): string
    decreases |s|
  {
    if s == "" then ""
    else if IsBlank(s[0]) then Trim(s[1..])
    else if IsBlank(s[|s| - 1]) then Trim(s[..|s| - 1])
    else s
  }

  /** The content a call of `send` would transmit. */
  function Draft(p: Page, retryPending: bool): string {
    if retryPending && p.pendingSend.Some? then p.pendingSend.value.content else Trim(p.input)
  }

  predicate SendStarts(p: Page, retryPending: bool, disabled: bool) {
    Draft(p, retryPending) != "" && !disabled
  }

  /** The request `send` transmits: the pending one, or a new one with a fresh `key`. */
  function RequestOf(p: Page, retryPending: bool, key: string, mode: Option<Mode>, option: Option<string>): Request {
    if retryPending && p.pendingSend.Some? then p.pendingSend.value
    else Request(p.active, Trim(p.input), key, mode, option, p.attachments)
  }

  function SendStart(p: Page, retryPending: bool): Page {
    var retry := retryPending && p.pendingSend.Some?;
    p.(input := if retry then p.input else "",
       attachments := if retry then p.attachments else [],
       busy := true,
       lastError := None,
       pendingSend := None,
       setup := true)
  }

  /** The answer to `send_message` arrived: its thread becomes the open one. */
  function Adopt(p: Page, r: Accepted): Page {
    UnparkPrompts(p.(active := Some(r.threadId)), r.threadId)
  }

  function UserRow(r: Accepted, content: string): Row {
    Row(r.userId, r.threadId, None, User, content, None, None, None, Some(Complete),
        None, None, None, None, None, None)
  }

  function AssistantRow(r: Accepted, modelId: Option<string>, mode: Option<Mode>): Row {
    Row(r.assistantId, r.threadId, Some(r.userId), Assistant, "", modelId, None, None, None,
        None, None, None, None, None, mode)
  }

  /** The two rows of a turn, each only if the list does not have it yet. */
  function SeedRows(list: seq<Row>, r: Accepted, content: string, modelId: Option<string>, mode: Option<Mode>): seq<Row> {
    var withUser := if Has(list, r.userId) then list else list + [UserRow(r, content)];
    if Has(withUser, r.assistantId) then withUser else withUser + [AssistantRow(r, modelId, mode)]
  }

  /** Installs the placeholder rows and makes the assistant row the active stream. */
  function SeedStream(p: Page, r: Accepted, content: string, modelId: Option<string>, mode: Option<Mode>): Page {
    p.(messages := p.messages[r.threadId := SeedRows(GetOr(p.messages, r.threadId, []), r, content, modelId, mode)],
       setup := false,
       streamingMessage := Some(r.assistantId),
       streamingThread := Some(r.threadId),
       buffer := "",
       retrying := None,
       reasoning := p.reasoning[r.assistantId := ""])
  }

  /** Replays the stream events held for `id`, which has just become the active stream. */
  function RestoreStream(p: Page, id: MessageId): Page {
    var held := HeldFor(p, id);
    var taken := p.(heldStream := p.heldStream - {id},
                    buffer := if held.retryReset then "" else p.buffer,
                    reasoning := if held.retryReset then p.reasoning[id := ""] else p.reasoning);
    RestoreOutcome(RestoreText(taken, id, held), held)
  }

  function RestoreText(p: Page, id: MessageId, held: Held): Page {
    if held.tokens == "" && held.reasoning == "" then p else OnToken(p, id, held.tokens, held.reasoning)
  }

  function RestoreOutcome(p: Page, held: Held): Page {
    if held.error.Some? then OnError(p, held.error.value)
    else if held.complete.Some? then OnComplete(p, held.complete.value)
    else p
  }

  /** The turn-complete event held for the accepted thread, when it ends the turn just set up. */
  predicate HeldTurnEnds(p: Page, r: Accepted) {
    r.threadId in p.heldTurns
    && p.heldTurns[r.threadId].threadId == r.threadId
    && (p.heldTurns[r.threadId].assistantId.None? || p.heldTurns[r.threadId].assistantId == Some(r.assistantId))
  }

  function RestoreTurn(p: Page, thread: ThreadId): Page {
    if thread !in p.heldTurns then p
    else OnTurnComplete(p.(heldTurns := p.heldTurns - {thread}), p.heldTurns[thread])
  }

  /** Everything `send` does between the placeholders and its next await. */
  function Seed(p: Page, r: Accepted, request: Request, modelId: Option<string>): Page {
    var seeded := SeedStream(p, r, request.content, modelId, request.autonomyMode);
    RestoreTurn(RestoreStream(RestoreTools(seeded, r.threadId), r.assistantId), r.threadId)
  }

  /** Whether a persisted list already has the finished answer of the retried turn. */
  predicate Finished(list: seq<Row>, id: MessageId) {
    Has(list, id) && list[IndexOf(list, id)].finishReason.Some?
  }

  /** A retry found its turn finished: ends it as its own completion event would. */
  function Recover(p: Page, r: Accepted, finish: Finish): Page {
    BeginClose(
      p.(streamingMessage := Some(r.assistantId),
         streamingThread := Some(r.threadId),
         setup := false,
         heldStream := p.heldStream - {r.assistantId},
         heldTurns := p.heldTurns - {r.threadId}),
      TurnEvent(r.threadId, Some(r.assistantId), finish))
  }

  /** A retry's reload arrived. */
  function RetryReloaded(p: Page, r: Accepted, request: Request, modelId: Option<string>, list: seq<Row>): Page {
    var loaded := p.(messages := p.messages[r.threadId := list]);
    if Finished(list, r.assistantId)
    then Recover(loaded, r, list[IndexOf(list, r.assistantId)].finishReason.value)
    else Seed(loaded, r, request, modelId)
  }

  function SendFailed(p: Page, request: Request, fault: Fault): Page {
    p.(pendingSend := Some(request), lastError := Some(fault), busy := false, setup := false)
  }

  // ---- moving between conversations (useComposer.ts:257-277, useThreadSidebar.ts:154-322) ---------

  function NewChat(p: Page, modelLoading: bool): Page {
    if p.busy || modelLoading then p
    else ParkPrompts(p).(
      active := None, input := "", attachments := [], streamingMessage := None, streamingThread := None,
      buffer := "", reasoning := map[], heldStream := map[])
  }

  /** Makes `thread` the open one; prompts shown for another thread are parked there. */
  function MoveTo(p: Page, thread: ThreadId): Page {
    p.(active := Some(thread),
       parked := if p.active == Some(thread) then p.parked else ParkPrompts(p).parked,
       prompts := if p.active == Some(thread) then p.prompts else ParkPrompts(p).prompts)
  }

  /** `selectThread` up to its await, or to its end when the thread's list is already loaded. */
  function Select(p: Page, thread: ThreadId): Page {
    if thread in p.messages then ShowSelected(MoveTo(p, thread), thread) else MoveTo(p, thread)
  }

  function ShowSelected(p: Page, thread: ThreadId): Page {
    RestoreTools(UnparkPrompts(p, thread), thread)
  }

  /** The list `selectThread` waited for arrived; `latest` unless a newer selection was made. */
  function SelectLoaded(p: Page, thread: ThreadId, list: seq<Row>, latest: bool): Page {
    var loaded := p.(messages := p.messages[thread := list]);
    if latest && p.active == Some(thread) then ShowSelected(loaded, thread) else loaded
  }

  /** A list reloaded after a change from elsewhere; a thread a turn streams into is left alone. */
  function ListRefreshed(p: Page, thread: ThreadId, list: seq<Row>): Page {
    p.(messages := if p.streamingThread == Some(thread) then p.messages else p.messages[thread := list])
  }

  /** A failure that is only reported: thread list refresh, answer, abort. */
  function Reported(p: Page, fault: Fault): Page {
    p.(lastError := Some(fault))
  }
}
