/**
 * The chat page together with what runs beside it: the `send` call in flight, the reloads of ended
 * turns, and the turn the backend works on. Any step that is `Possible` may come next.
 */
module ChatSystem {
  import opened Base
  import opened ChatTypes
  import opened Rows
  import opened PageSteps

  /**
   * Where the one call of `send` waits. `started` is the turn the backend started for this call; a
   * retry of a request the backend already knows starts none.
   */
  datatype Call =
    | NoCall
    | Waiting(request: Request, retry: bool, started: Option<Accepted>)
    | Reloading(request: Request, result: Accepted, started: Option<Accepted>)

  /** A running `applyTurnComplete`: waiting for the list (`None`), or for what follows it. */
  datatype Closing = Closing(event: TurnEvent, list: Option<seq<Row>>)

  /** `owed` is the turn whose completion event the backend has still to send; `wire` every request sent. */
  datatype Sys = Sys(
    page: Page,
    call: Call,
    closings: seq<Closing>,
    owed: Option<Accepted>,
    wire: seq<Request>)

  datatype Step =
    | Send(retryPending: bool, disabled: bool, key: string, mode: Option<Mode>, option: Option<string>)
    | Start(turn: Accepted)                              // the backend accepts the request and starts its turn
    | Respond(result: Accepted, modelId: Option<string>)
    | Reload(list: seq<Row>, modelId: Option<string>)    // the reload of a retry arrives
    | Fail(fault: Fault)                                 // the call, or the reload of a retry, fails
    | Token(id: MessageId, delta: string, reasoning: string)
    | Retry(id: MessageId)
    | Completed(complete: CompleteEvent)
    | Errored(error: ErrorEvent)
    | Tool(tool: ToolEvent)
    | Ask(thread: ThreadId, prompt: Prompt)
    | Turn(turnEnd: TurnEvent)
    | ClosingLoaded(list: seq<Row>)
    | ClosingFailed(fault: Fault)
    | ClosingSettled(late: Option<Fault>)
    | Answer(requestId: string)
    | New(modelLoading: bool)
    | Open(thread: ThreadId)
    | Opened(thread: ThreadId, list: seq<Row>, latest: bool)
    | Refreshed(thread: ThreadId, list: seq<Row>)
    | Report(fault: Fault)
    | Compose(text: string, files: seq<string>)          // the user edits the draft

  const INITIAL := Sys(EMPTY_PAGE, NoCall, [], None, [])

  predicate Names(e: TurnEvent, r: Accepted) {
    e.threadId == r.threadId && (e.assistantId.None? || e.assistantId == Some(r.assistantId))
  }

  /** What control flow allows: a continuation runs only after its stretch, an event only if owed. */
  predicate Possible(s: Sys, step: Step) {
    match step
    case Send(_, disabled, _, _, _) => s.page.busy ==> disabled
    case Start(_) => s.call.Waiting? && s.call.started.None? && s.owed.None?
    case Respond(_, _) => s.call.Waiting?
    case Reload(_, _) => s.call.Reloading?
    case Fail(_) => !s.call.NoCall?
    case Turn(e) => s.owed.Some? && Names(e, s.owed.value)
    case ClosingLoaded(_) => s.closings != [] && s.closings[0].list.None?
    case ClosingFailed(_) => s.closings != [] && s.closings[0].list.None?
    case ClosingSettled(_) => s.closings != [] && s.closings[0].list.Some?
    case _ => true
  }

  function Began(e: TurnEvent): Closing {
    Closing(e, None)
  }

  /** The reload a held turn-complete event starts once its turn is set up. */
  function HeldClosing(p: Page, r: Accepted): seq<Closing> {
    if HeldTurnEnds(p, r) then [Began(p.heldTurns[r.threadId])] else []
  }

  function Apply(s: Sys, step: Step): Sys
    requires Possible(s, step)
  {
    match step
    case Send(retryPending, disabled, key, mode, option) =>
      if !SendStarts(s.page, retryPending, disabled) then s
      else
        var request := RequestOf(s.page, retryPending, key, mode, option);
        s.(page := SendStart(s.page, retryPending),
           call := Waiting(request, retryPending && s.page.pendingSend.Some?, None),
           wire := s.wire + [request])
    case Start(turn) => s.(call := Waiting(s.call.request, s.call.retry, Some(turn)), owed := Some(turn))
    case Respond(r, modelId) =>
      var adopted := Adopt(s.page, r);
      if s.call.retry then s.(page := adopted, call := Reloading(s.call.request, r, s.call.started))
      else s.(page := Seed(adopted, r, s.call.request, modelId),
              call := NoCall,
              closings := s.closings + HeldClosing(s.page, r))
    case Reload(list, modelId) =>
      var r := s.call.result;
      s.(page := RetryReloaded(s.page, r, s.call.request, modelId, list),
         call := NoCall,
         closings := s.closings + (
           if Finished(list, r.assistantId)
           then [Began(TurnEvent(r.threadId, Some(r.assistantId), list[IndexOf(list, r.assistantId)].finishReason.value))]
           else HeldClosing(s.page, r)))
    case Fail(fault) => s.(page := SendFailed(s.page, s.call.request, fault), call := NoCall)
    case Token(id, delta, reasoning) => s.(page := OnToken(s.page, id, delta, reasoning))
    case Retry(id) => s.(page := OnRetry(s.page, id))
    case Completed(e) => s.(page := OnComplete(s.page, e))
    case Errored(e) => s.(page := OnError(s.page, e))
    case Tool(e) => s.(page := OnTool(s.page, e))
    case Ask(thread, prompt) => s.(page := OnPrompt(s.page, thread, prompt))
    case Turn(e) =>
      s.(page := OnTurnComplete(s.page, e),
         closings := s.closings + (if Ends(s.page, e) then [Began(e)] else []),
         owed := None)
    case ClosingLoaded(list) =>
      s.(page := CloseLoaded(s.page, s.closings[0].event.threadId, list),
         closings := [s.closings[0].(list := Some(list))] + s.closings[1..])
    case ClosingFailed(fault) => s.(page := CloseSettled(s.page, Some(fault)), closings := s.closings[1..])
    case ClosingSettled(late) => s.(page := CloseSettled(s.page, late), closings := s.closings[1..])
    case Answer(requestId) => s.(page := OnAnswered(s.page, requestId))
    case New(modelLoading) => s.(page := NewChat(s.page, modelLoading))
    case Open(thread) => s.(page := Select(s.page, thread))
    case Opened(thread, list, latest) => s.(page := SelectLoaded(s.page, thread, list, latest))
    case Refreshed(thread, list) => s.(page := ListRefreshed(s.page, thread, list))
    case Report(fault) => s.(page := Reported(s.page, fault))
    case Compose(text, files) => s.(page := s.page.(input := text, attachments := files))
  }

  /**
   * The retried turn `r` has exactly one end: it is over in the reloaded list and its completion event
   * was delivered before, or it is not and that event is either still owed or held, not both.
   */
  predicate OneEnd(s: Sys, r: Accepted, list: seq<Row>) {
    if Finished(list, r.assistantId) then s.owed.None?
    else s.owed.Some? <==> !HeldTurnEnds(s.page, r)
  }

  /** Some reload is still running for the message, so its turn is over. */
  predicate Over(s: Sys, id: MessageId) {
    s.closings != [] && s.page.streamingMessage == Some(id)
  }

  /**
   * What the environment promises: keys and ids are fresh, a response keeps the request's thread and
   * follows the start of its turn, persisted lists have distinct ids and finished answers only, the
   * one completion event of a turn is its last event, no older completion event passes for it, and
   * nobody switches or reloads conversations during turn setup. A list that was awaited for a
   * conversation may arrive while a turn streams into it; what that costs is stated where it matters.
   */
  ghost predicate Promised(s: Sys, step: Step) {
    match step
    case Send(_, _, key, _, _) => forall i :: 0 <= i < |s.wire| ==> s.wire[i].key != key
    case Respond(r, _) =>
      s.call.Waiting? && RespondPromised(s, r) && (!s.call.retry ==> !(s.owed.Some? && HeldTurnEnds(s.page, r)))
    case Reload(list, _) =>
      s.call.Reloading? && ReloadPromised(s, list) && OneEnd(s, s.call.result, list)
    case Token(id, _, _) => !Over(s, id)
    case Retry(id) => !Over(s, id)
    case Completed(e) => !Over(s, e.messageId)
    case Errored(e) => !Over(s, e.messageId)
    case Tool(e) => s.closings != [] ==> s.closings[0].event.threadId != e.threadId
    case ClosingLoaded(list) => Distinct(Ids(list))
    case Open(_) => s.call.NoCall?
    case Opened(_, list, _) => s.call.NoCall? && Distinct(Ids(list))
    case Refreshed(_, list) => s.call.NoCall? && Distinct(Ids(list))
    case _ => true
  }

  /** The promises about a response, apart from which completion event ends its turn. */
  ghost predicate RespondPromised(s: Sys, r: Accepted)
    requires s.call.Waiting?
  {
    r.userId != r.assistantId
    && (s.call.request.threadId.Some? ==> s.call.request.threadId == Some(r.threadId))
    && (s.owed.Some? ==> s.owed == Some(r))
    && (s.call.started.Some? ==> s.call.started == Some(r))
    && (!s.call.retry ==>
          s.call.started.Some?
          && !Has(GetOr(s.page.messages, r.threadId, []), r.userId)
          && !Has(GetOr(s.page.messages, r.threadId, []), r.assistantId))
  }

  /** The promises about a retry's reload, apart from which completion event ends its turn. */
  ghost predicate ReloadPromised(s: Sys, list: seq<Row>)
    requires s.call.Reloading?
  {
    Distinct(Ids(list)) && (Has(list, s.call.result.assistantId) ==> Finished(list, s.call.result.assistantId))
  }

  ghost predicate Allowed(s: Sys, steps: seq<Step>)
    decreases |steps|
  {
    steps == [] || (Possible(s, steps[0]) && Promised(s, steps[0]) && Allowed(Apply(s, steps[0]), steps[1..]))
  }

  ghost function Exec(s: Sys, steps: seq<Step>): Sys
    requires Allowed(s, steps)
    decreases |steps|
  {
    if steps == [] then s else Exec(Apply(s, steps[0]), steps[1..])
  }

  lemma ExecSplit(s: Sys, first: seq<Step>, second: seq<Step>)
    ensures Allowed(s, first + second) <==> Allowed(s, first) && Allowed(Exec(s, first), second)
    ensures Allowed(s, first + second) ==> Exec(s, first + second) == Exec(Exec(s, first), second)
    decreases |first|
  {
    if first == [] {
      assert first + second == second;
    } else {
      assert (first + second)[1..] == first[1..] + second;
      if Possible(s, first[0]) {
        ExecSplit(Apply(s, first[0]), first[1..], second);
      }
    }
  }

  /** Runs the code allows, whatever the environment promises. */
  predicate PossibleRun(s: Sys, steps: seq<Step>)
    decreases |steps|
  {
    steps == [] || (Possible(s, steps[0]) && PossibleRun(Apply(s, steps[0]), steps[1..]))
  }

  function RunTo(s: Sys, steps: seq<Step>): Sys
    requires PossibleRun(s, steps)
    decreases |steps|
  {
    if steps == [] then s else RunTo(Apply(s, steps[0]), steps[1..])
  }

  lemma {:induction false} AllowedIsPossible(s: Sys, steps: seq<Step>)
    requires Allowed(s, steps)
    ensures PossibleRun(s, steps) && RunTo(s, steps) == Exec(s, steps)
    decreases |steps|
  {
    if steps != [] {
      AllowedIsPossible(Apply(s, steps[0]), steps[1..]);
    }
  }
}
