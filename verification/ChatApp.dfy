/**
 * The chat page running: its methods called in the order in which responses, reloads, events and the user
 * come. Every step of `ChatSystem` is a call here, so what is proved of its runs is proved of this program.
 */
module ChatApp {
  import opened Base
  import opened ChatTypes
  import opened Rows
  import opened PageSteps
  import opened ChatSystem
  import opened TurnProtocol
  import Pages = ChatPage

  class ChatApp {
    const page: Pages.ChatPage
    var call: Call
    var closings: seq<Closing>
    var owed: Option<Accepted>
    var wire: seq<Request>

    function View(): Sys
      reads this, page
    {
      Sys(page.View(), call, closings, owed, wire)
    }

    /** The app is in a state of a sound run. */
    ghost predicate Valid()
      reads this, page
    {
      TurnInv(View())
    }

    constructor ()
      ensures Valid() && View() == INITIAL && fresh(page)
    {
      page := new Pages.ChatPage();
      call, closings, owed, wire := NoCall, [], None, [];
    }

    // ---- the call of `send` -------------------------------------------------------------------------

    method DoSend(retryPending: bool, disabled: bool, key: string, mode: Option<Mode>, option: Option<string>)
      requires Possible(View(), Send(retryPending, disabled, key, mode, option))
      modifies this`call, this`wire, page
      ensures View() == Apply(old(View()), Send(retryPending, disabled, key, mode, option))
    {
      var retry := retryPending && page.pendingSend.Some?;
      var sent := page.BeginSend(retryPending, disabled, key, mode, option);
      if sent.Some? {
        call := Waiting(sent.value, retry, None);
        wire := wire + [sent.value];
      }
    }

    method DoRespond(r: Accepted, modelId: Option<string>)
      requires call.Waiting?
      modifies this`call, this`closings, page
      ensures View() == Apply(old(View()), Respond(r, modelId))
    {
      page.AdoptThread(r);
      if call.retry {
        call := Reloading(call.request, r, call.started);
      } else {
        Answered(r, modelId);
      }
    }

    method Answered(r: Accepted, modelId: Option<string>)
      requires call.Waiting?
      modifies this`call, this`closings, page
      ensures View() == old(View()).(
                page := Seed(old(page.View()), r, old(call.request), modelId), call := NoCall,
                closings := old(closings) + HeldClosing(old(page.View()), r))
    {
      var held := page.heldTurns;
      var ends := page.SetUpTurn(r, call.request, modelId);
      EndCall(if ends then [Began(held[r.threadId])] else []);
    }

    /** The call of `send` is over; what it set up may begin an ending. */
    method EndCall(begun: seq<Closing>)
      modifies this`call, this`closings
      ensures call == NoCall && closings == old(closings) + begun
    {
      call := NoCall;
      closings := closings + begun;
    }

    method DoReload(list: seq<Row>, modelId: Option<string>)
      requires call.Reloading?
      modifies this`call, this`closings, page
      ensures View() == Apply(old(View()), Reload(list, modelId))
    {
      ReloadCloses(View(), list, modelId);
      Reloaded(list, modelId);
    }

    method Reloaded(list: seq<Row>, modelId: Option<string>)
      requires call.Reloading?
      modifies this`call, this`closings, page
      ensures View() == old(View()).(
                page := RetryReloaded(old(page.View()), old(call.result), old(call.request), modelId, list), call := NoCall,
                closings := old(closings) + ReloadEnds(old(page.View()), old(call.result), list))
    {
      var r, held := call.result, page.heldTurns;
      var ends := page.ResumeRetry(r, call.request, modelId, list);
      EndCall(if ends then [ReloadEnd(r, list, held)] else []);
    }

    method DoFail(fault: Fault)
      requires !call.NoCall?
      modifies this`call, page
      ensures View() == Apply(old(View()), Fail(fault))
    {
      page.FailSend(call.request, fault);
      call := NoCall;
    }

    // ---- the ends of turns --------------------------------------------------------------------------

    method DoTurn(e: TurnEvent)
      requires Possible(View(), Turn(e))
      modifies this`closings, this`owed, page
      ensures View() == Apply(old(View()), Turn(e))
    {
      var ends := page.HandleTurnComplete(e);
      if ends {
        closings := closings + [Began(e)];
      }
      owed := None;
    }

    method DoClosingLoaded(list: seq<Row>)
      requires Possible(View(), ClosingLoaded(list))
      modifies this`closings, page
      ensures View() == Apply(old(View()), ClosingLoaded(list))
    {
      page.ReloadedAfterTurn(closings[0].event.threadId, list);
      closings := [closings[0].(list := Some(list))] + closings[1..];
    }

    method DoSettle(caught: Option<Fault>)
      requires closings != []
      modifies this`closings, page
      ensures View() == old(View()).(page := CloseSettled(old(page.View()), caught), closings := old(closings)[1..])
    {
      page.SettleTurn(caught);
      closings := closings[1..];
    }

    // ---- everything else ----------------------------------------------------------------------------

    method OnEvent(step: Step)
      requires IsEvent(step)
      modifies page
      ensures page.View() == PageAfter(old(page.View()), step)
    {
      match step
      case Token(id, delta, reasoning) => page.HandleToken(id, delta, reasoning);
      case Retry(id) => page.HandleRetry(id);
      case Completed(e) => page.HandleComplete(e);
      case Errored(e) => page.HandleError(e);
      case Tool(e) => page.HandleTool(e);
      case Ask(thread, prompt) => page.HandlePrompt(thread, prompt);
      case _ =>
    }

    method OnUser(step: Step)
      requires step.Answer? || step.New? || step.Report? || step.Compose?
      modifies page
      ensures page.View() == PageAfter(old(page.View()), step)
    {
      if step.Answer? {
        page.Answered(step.requestId);
      } else if step.New? {
        page.StartNewChat(step.modelLoading);
      } else if step.Report? {
        page.Report(step.fault);
      } else {
        page.Compose(step.text, step.files);
      }
    }

    method OnMove(step: Step)
      requires step.Open? || step.Opened? || step.Refreshed?
      modifies page
      ensures page.View() == PageAfter(old(page.View()), step)
    {
      if step.Open? {
        var loads := page.SelectThread(step.thread);
      } else if step.Opened? {
        page.ThreadLoaded(step.thread, step.list, step.latest);
      } else {
        page.RefreshList(step.thread, step.list);
      }
    }

    method OnTurn(step: Step)
      requires Possible(View(), step) && !IsEvent(step) && !IsUserStep(step)
      modifies this, page
      ensures View() == Apply(old(View()), step)
    {
      match step
      case Send(retryPending, disabled, key, mode, option) => DoSend(retryPending, disabled, key, mode, option);
      case Start(turn) =>
        call := Waiting(call.request, call.retry, Some(turn));
        owed := Some(turn);
      case Respond(r, modelId) => DoRespond(r, modelId);
      case Reload(list, modelId) => DoReload(list, modelId);
      case Fail(fault) => DoFail(fault);
      case Turn(e) => DoTurn(e);
      case ClosingLoaded(list) => DoClosingLoaded(list);
      case ClosingFailed(fault) => DoSettle(Some(fault));
      case ClosingSettled(late) => DoSettle(late);
      case _ =>
    }

    /** One step; in a sound state, and with the environment's promises, the next state is sound. */
    method Perform(step: Step)
      requires Possible(View(), step)
      modifies this, page
      ensures View() == Apply(old(View()), step)
      ensures old(Valid() && Promised(View(), step)) ==> Valid()
    {
      if TurnInv(View()) && Promised(View(), step) {
        StepPreserves(View(), step);
      }
      if IsEvent(step) || IsUserStep(step) {
        OnlyPageMoves(View(), step);
      }
      if IsEvent(step) {
        OnEvent(step);
      } else if step.Open? || step.Opened? || step.Refreshed? {
        OnMove(step);
      } else if IsUserStep(step) {
        OnUser(step);
      } else {
        OnTurn(step);
      }
    }

    /** A whole run: the app reaches what `RunTo` gives, and stays sound in allowed runs. */
    method Play(steps: seq<Step>)
      requires PossibleRun(View(), steps)
      modifies this, page
      ensures View() == RunTo(old(View()), steps)
      ensures old(Valid() && Allowed(View(), steps)) ==> Valid()
    {
      ghost var start := View();
      if TurnInv(start) && Allowed(start, steps) {
        AllowedIsPossible(start, steps);
        RunPreserves(start, steps);
      }
      for i := 0 to |steps|
        invariant PossibleRun(View(), steps[i..])
        invariant RunTo(View(), steps[i..]) == RunTo(start, steps)
      {
        assert steps[i..][0] == steps[i] && steps[i..][1..] == steps[i + 1..];
        Perform(steps[i]);
      }
    }
  }

  predicate IsEvent(step: Step) {
    step.Token? || step.Retry? || step.Completed? || step.Errored? || step.Tool? || step.Ask?
  }

  predicate IsUserStep(step: Step) {
    step.Answer? || step.New? || step.Open? || step.Opened? || step.Refreshed? || step.Report? || step.Compose?
  }

  /** What an event, or the user beside a send, does: the page alone moves. */
  function PageAfter(p: Page, step: Step): Page
    requires IsEvent(step) || IsUserStep(step)
  {
    match step
    case Token(id, delta, reasoning) => OnToken(p, id, delta, reasoning)
    case Retry(id) => OnRetry(p, id)
    case Completed(e) => OnComplete(p, e)
    case Errored(e) => OnError(p, e)
    case Tool(e) => OnTool(p, e)
    case Ask(thread, prompt) => OnPrompt(p, thread, prompt)
    case Answer(requestId) => OnAnswered(p, requestId)
    case New(modelLoading) => NewChat(p, modelLoading)
    case Open(thread) => Select(p, thread)
    case Opened(thread, list, latest) => SelectLoaded(p, thread, list, latest)
    case Refreshed(thread, list) => ListRefreshed(p, thread, list)
    case Report(fault) => Reported(p, fault)
    case Compose(text, files) => p.(input := text, attachments := files)
  }

  lemma OnlyPageMoves(s: Sys, step: Step)
    requires IsEvent(step) || IsUserStep(step)
    ensures Apply(s, step) == s.(page := PageAfter(s.page, step))
  {
  }

  /** The event a retry's reload ends its turn with. */
  function ReloadEnd(r: Accepted, list: seq<Row>, held: map<ThreadId, TurnEvent>): Closing
    requires Finished(list, r.assistantId) || r.threadId in held
  {
    if Finished(list, r.assistantId)
    then Began(TurnEvent(r.threadId, Some(r.assistantId), list[IndexOf(list, r.assistantId)].finishReason.value))
    else Began(held[r.threadId])
  }

  function ReloadEnds(p: Page, r: Accepted, list: seq<Row>): seq<Closing> {
    if Finished(list, r.assistantId) || HeldTurnEnds(p, r) then [ReloadEnd(r, list, p.heldTurns)] else []
  }

  lemma ReloadCloses(s: Sys, list: seq<Row>, modelId: Option<string>)
    requires s.call.Reloading?
    ensures Apply(s, Reload(list, modelId)) == s.(
              page := RetryReloaded(s.page, s.call.result, s.call.request, modelId, list), call := NoCall,
              closings := s.closings + ReloadEnds(s.page, s.call.result, list))
  {
    assert ReloadEnds(s.page, s.call.result, list) ==
      if Finished(list, s.call.result.assistantId)
      then [Began(TurnEvent(s.call.result.threadId, Some(s.call.result.assistantId),
                            list[IndexOf(list, s.call.result.assistantId)].finishReason.value))]
      else HeldClosing(s.page, s.call.result);
  }
}
