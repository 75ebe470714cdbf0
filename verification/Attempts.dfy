/** What the page sends: every attempt of one send is the identical request, and no two sends share a key. */
module Attempts {
  import opened Base
  import opened ChatTypes
  import opened Rows
  import opened PageSteps
  import opened ChatSystem

  /** Attempts of one send are the same request. */
  ghost predicate OneRequestPerKey(wire: seq<Request>) {
    forall i, j :: 0 <= i < |wire| && 0 <= j < |wire| && wire[i].key == wire[j].key ==> wire[i] == wire[j]
  }

  /** The request kept for a retry, and the one in flight, are requests that were sent. */
  ghost predicate WireInv(s: Sys) {
    OneRequestPerKey(s.wire)
    && (s.page.pendingSend.Some? ==> s.page.pendingSend.value in s.wire)
    && (!s.call.NoCall? ==> s.call.request in s.wire)
  }

  // ---- stretches that leave the kept request alone ------------------------------------------------

  predicate SamePending(p: Page, q: Page) {
    q.pendingSend == p.pendingSend
  }

  lemma OutcomePending(p: Page, held: Held)
    ensures SamePending(p, RestoreOutcome(p, held))
  {
  }

  lemma StreamPending(p: Page, id: MessageId)
    ensures SamePending(p, RestoreStream(p, id))
  {
    var held := HeldFor(p, id);
    var taken := p.(heldStream := p.heldStream - {id},
                    buffer := if held.retryReset then "" else p.buffer,
                    reasoning := if held.retryReset then p.reasoning[id := ""] else p.reasoning);
    assert SamePending(p, taken);
    assert SamePending(taken, RestoreText(taken, id, held));
    OutcomePending(RestoreText(taken, id, held), held);
  }

  lemma TurnPending(p: Page, e: TurnEvent)
    ensures SamePending(p, OnTurnComplete(p, e))
  {
  }

  lemma RestoreTurnPending(p: Page, thread: ThreadId)
    ensures SamePending(p, RestoreTurn(p, thread))
  {
    if thread in p.heldTurns {
      TurnPending(p.(heldTurns := p.heldTurns - {thread}), p.heldTurns[thread]);
    }
  }

  lemma TailPending(p: Page, r: Accepted)
    ensures SamePending(p, RestoreTurn(RestoreStream(p, r.assistantId), r.threadId))
  {
    StreamPending(p, r.assistantId);
    RestoreTurnPending(RestoreStream(p, r.assistantId), r.threadId);
  }

  lemma SeedPending(p: Page, r: Accepted, request: Request, modelId: Option<string>)
    ensures SamePending(p, Seed(p, r, request, modelId))
  {
    var seeded := SeedStream(p, r, request.content, modelId, request.autonomyMode);
    assert SamePending(p, seeded);
    assert SamePending(seeded, RestoreTools(seeded, r.threadId));
    TailPending(RestoreTools(seeded, r.threadId), r);
  }

  lemma RecoverPending(p: Page, r: Accepted, finish: Finish)
    ensures SamePending(p, Recover(p, r, finish))
  {
  }

  lemma ReloadPending(p: Page, r: Accepted, request: Request, modelId: Option<string>, list: seq<Row>)
    ensures SamePending(p, RetryReloaded(p, r, request, modelId, list))
  {
    var loaded := p.(messages := p.messages[r.threadId := list]);
    assert SamePending(p, loaded);
    if Finished(list, r.assistantId) {
      RecoverPending(loaded, r, list[IndexOf(list, r.assistantId)].finishReason.value);
    } else {
      SeedPending(loaded, r, request, modelId);
    }
  }

  lemma ShowPending(p: Page, thread: ThreadId)
    ensures SamePending(p, ShowSelected(p, thread))
  {
    assert SamePending(p, UnparkPrompts(p, thread));
  }

  lemma OpenPending(p: Page, thread: ThreadId, list: seq<Row>, latest: bool)
    ensures SamePending(p, Select(p, thread)) && SamePending(p, SelectLoaded(p, thread, list, latest))
  {
    assert SamePending(p, MoveTo(p, thread));
    ShowPending(MoveTo(p, thread), thread);
    ShowPending(p.(messages := p.messages[thread := list]), thread);
  }

  lemma NewPending(p: Page, modelLoading: bool)
    ensures SamePending(p, NewChat(p, modelLoading))
  {
  }

  lemma EventPending(p: Page, id: MessageId, delta: string, text: string)
    ensures SamePending(p, OnToken(p, id, delta, text)) && SamePending(p, OnRetry(p, id))
  {
  }

  // ---- runs -----------------------------------------------------------------------------------------

  /** A send that is not a retry draws a key no earlier request has. */
  ghost predicate KeyIsFresh(s: Sys, step: Step) {
    step.Send? ==> forall i :: 0 <= i < |s.wire| ==> s.wire[i].key != step.key
  }

  ghost predicate KeysAreFresh(s: Sys, steps: seq<Step>)
    requires PossibleRun(s, steps)
    decreases |steps|
  {
    steps != [] ==> KeyIsFresh(s, steps[0]) && KeysAreFresh(Apply(s, steps[0]), steps[1..])
  }

  lemma SendKeepsWire(s: Sys, step: Step)
    requires WireInv(s) && Possible(s, step) && KeyIsFresh(s, step) && step.Send?
    ensures WireInv(Apply(s, step))
  {
    var next := Apply(s, step);
    if SendStarts(s.page, step.retryPending, step.disabled) {
      var request := RequestOf(s.page, step.retryPending, step.key, step.mode, step.option);
      assert next.wire == s.wire + [request] && next.page.pendingSend.None?;
      assert request in s.wire || request.key == step.key;
    }
  }

  lemma CallKeepsWire(s: Sys, step: Step)
    requires WireInv(s) && Possible(s, step) && (step.Respond? || step.Reload?)
    ensures WireInv(Apply(s, step)) && s.wire == Apply(s, step).wire
  {
    if step.Respond? {
      assert SamePending(s.page, Adopt(s.page, step.result));
      SeedPending(Adopt(s.page, step.result), step.result, s.call.request, step.modelId);
    } else {
      ReloadPending(s.page, s.call.result, s.call.request, step.modelId, step.list);
    }
  }

  lemma StepKeepsWire(s: Sys, step: Step)
    requires WireInv(s) && Possible(s, step) && KeyIsFresh(s, step)
    ensures WireInv(Apply(s, step)) && s.wire <= Apply(s, step).wire
  {
    if step.Send? {
      SendKeepsWire(s, step);
    } else if step.Respond? || step.Reload? {
      CallKeepsWire(s, step);
    } else {
      match step
      case Token(id, delta, text) => EventPending(s.page, id, delta, text);
      case Retry(id) => EventPending(s.page, id, "", "");
      case Turn(e) => TurnPending(s.page, e);
      case New(modelLoading) => NewPending(s.page, modelLoading);
      case Open(t) => OpenPending(s.page, t, [], false);
      case Opened(t, list, latest) => OpenPending(s.page, t, list, latest);
      case _ =>
    }
  }

  /** In every run, whatever else the environment does, all attempts that carry one key are the identical request. */
  lemma {:induction false} RunKeepsWire(s: Sys, steps: seq<Step>)
    requires WireInv(s) && PossibleRun(s, steps) && KeysAreFresh(s, steps)
    ensures WireInv(RunTo(s, steps)) && s.wire <= RunTo(s, steps).wire
    decreases |steps|
  {
    if steps != [] {
      StepKeepsWire(s, steps[0]);
      RunKeepsWire(Apply(s, steps[0]), steps[1..]);
    }
  }

  /** A failed send is kept whole: repeating it sends it again and leaves what was typed since alone. */
  lemma RetryRepeats(
    s: Sys, fault: Fault, text: string, files: seq<string>, key: string, mode: Option<Mode>, option: Option<string>)
    requires WireInv(s) && !s.call.NoCall? && s.call.request.content != ""
    ensures var typed := Apply(Apply(s, Fail(fault)), Compose(text, files));
            !typed.page.busy
            && Apply(typed, Send(true, false, key, mode, option)).call == Waiting(s.call.request, true, None)
            && Apply(typed, Send(true, false, key, mode, option)).wire == s.wire + [s.call.request]
            && Apply(typed, Send(true, false, key, mode, option)).page.input == text
            && Apply(typed, Send(true, false, key, mode, option)).page.attachments == files
  {
    var failed := Apply(s, Fail(fault));
    assert failed.page.pendingSend == Some(s.call.request) && !failed.page.busy;
    RetrySends(Apply(failed, Compose(text, files)), s.call.request, key, mode, option);
  }

  lemma RetrySends(s: Sys, request: Request, key: string, mode: Option<Mode>, option: Option<string>)
    requires s.page.pendingSend == Some(request) && request.content != "" && !s.page.busy
    ensures var again := Apply(s, Send(true, false, key, mode, option));
            again.call == Waiting(request, true, None)
            && again.wire == s.wire + [request]
            && again.page.input == s.page.input && again.page.attachments == s.page.attachments
  {
    assert Draft(s.page, true) == request.content;
    assert SendStarts(s.page, true, false);
    assert RequestOf(s.page, true, key, mode, option) == request;
  }
}
