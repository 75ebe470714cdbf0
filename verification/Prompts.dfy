/**
 * Prompts the agent waits on: whose conversation they are shown in, and that moving between
 * conversations neither loses nor reorders them.
 */
module Prompts {
  import opened Base
  import opened ChatTypes
  import opened Rows
  import opened PageSteps
  import opened ChatSystem
  import opened TurnProtocol
  import Hazards = TurnHazards

  /** Which conversation a request belongs to; the page itself drops that once a prompt is shown. */
  type Owner = string -> ThreadId

  // ---- ownership --------------------------------------------------------------------------------

  /** Shown prompts belong to the open conversation, parked ones to the one they are parked for. */
  ghost predicate Owned(p: Page, owner: Owner) {
    (forall x :: x in p.prompts ==> p.active == Some(owner(x.requestId)))
    && (forall t, x :: t in p.parked && x in p.parked[t] ==> owner(x.requestId) == t)
  }

  ghost predicate PromptInv(s: Sys, owner: Owner) {
    Owned(s.page, owner)
    && (s.page.active.None? ==> s.page.prompts == [])
    && (s.call.Waiting? && !s.call.retry ==> s.call.request.threadId == s.page.active)
  }

  /** The promise about prompts: a request is asked in its own conversation. */
  predicate AskedAtHome(step: Step, owner: Owner) {
    step.Ask? ==> owner(step.prompt.requestId) == step.thread
  }

  /** The accepted conversation is the open one, unless no prompt is shown. The code does not check it. */
  predicate LandsAtHome(s: Sys, step: Step) {
    step.Respond? ==> s.page.prompts == [] || s.page.active == Some(step.result.threadId)
  }

  predicate SamePrompts(p: Page, q: Page) {
    q.prompts == p.prompts && q.parked == p.parked && q.active == p.active
  }

  lemma TokenPromptFrame(p: Page, id: MessageId, delta: string, reasoning: string)
    ensures SamePrompts(p, OnToken(p, id, delta, reasoning))
  {
  }

  lemma RetryPromptFrame(p: Page, id: MessageId)
    ensures SamePrompts(p, OnRetry(p, id))
  {
    if Streams(p, id) {
      assert SamePrompts(p, OnRetry(p, id));
    }
  }

  lemma CompletePromptFrame(p: Page, e: CompleteEvent)
    ensures SamePrompts(p, OnComplete(p, e))
  {
    if p.streamingMessage == Some(e.messageId) {
      assert SamePrompts(p, OnComplete(p, e));
    }
  }

  lemma ErrorPromptFrame(p: Page, e: ErrorEvent)
    ensures SamePrompts(p, OnError(p, e))
  {
    if p.streamingMessage == Some(e.messageId) {
      assert SamePrompts(p, OnError(p, e));
    }
  }

  lemma ToolPromptFrame(p: Page, e: ToolEvent, t: ThreadId)
    ensures SamePrompts(p, OnTool(p, e))
    ensures SamePrompts(p, RestoreTools(p, t))
  {
  }

  lemma RestoreStreamPromptFrame(p: Page, id: MessageId)
    ensures SamePrompts(p, RestoreStream(p, id))
  {
    var held := HeldFor(p, id);
    var taken := p.(heldStream := p.heldStream - {id},
                    buffer := if held.retryReset then "" else p.buffer,
                    reasoning := if held.retryReset then p.reasoning[id := ""] else p.reasoning);
    TokenPromptFrame(taken, id, held.tokens, held.reasoning);
    var spoken := RestoreText(taken, id, held);
    if held.error.Some? {
      ErrorPromptFrame(spoken, held.error.value);
    } else if held.complete.Some? {
      CompletePromptFrame(spoken, held.complete.value);
    }
  }

  /** Setting up a turn touches prompts only through a held completion event that ends it. */
  lemma SeedPrompts(p: Page, r: Accepted, request: Request, modelId: Option<string>)
    ensures var q := Seed(p, r, request, modelId);
            if HeldTurnEnds(p, r)
            then q.active == p.active && q.parked == p.parked - {r.threadId}
                 && q.prompts == (if p.active == Some(r.threadId) then [] else p.prompts)
            else SamePrompts(p, q)
  {
    var seeded := SeedStream(p, r, request.content, modelId, request.autonomyMode);
    assert SamePrompts(p, seeded) && seeded.heldTurns == p.heldTurns && !seeded.setup && IsStreamed(seeded, r);
    SeedTailPrompts(seeded, r);
  }

  lemma SeedTailPrompts(seeded: Page, r: Accepted)
    requires !seeded.setup && IsStreamed(seeded, r)
    ensures var q := RestoreTurn(RestoreStream(RestoreTools(seeded, r.threadId), r.assistantId), r.threadId);
            if HeldTurnEnds(seeded, r)
            then q.active == seeded.active && q.parked == seeded.parked - {r.threadId}
                 && q.prompts == (if seeded.active == Some(r.threadId) then [] else seeded.prompts)
            else SamePrompts(seeded, q)
  {
    RestoreToolsKeeps(seeded, r.threadId);
    ToolPromptFrame(seeded, Call(r.assistantId, r.threadId, "", "", ""), r.threadId);
    StreamTailPrompts(RestoreTools(seeded, r.threadId), r);
  }

  lemma StreamTailPrompts(tooled: Page, r: Accepted)
    requires !tooled.setup && IsStreamed(tooled, r)
    ensures var q := RestoreTurn(RestoreStream(tooled, r.assistantId), r.threadId);
            if HeldTurnEnds(tooled, r)
            then q.active == tooled.active && q.parked == tooled.parked - {r.threadId}
                 && q.prompts == (if tooled.active == Some(r.threadId) then [] else tooled.prompts)
            else SamePrompts(tooled, q)
  {
    RestoreStreamKeeps(tooled, r.assistantId);
    RestoreStreamPromptFrame(tooled, r.assistantId);
    RestoreTurnPrompts(RestoreStream(tooled, r.assistantId), r);
  }

  lemma RestoreTurnPrompts(p: Page, r: Accepted)
    requires !p.setup && IsStreamed(p, r)
    ensures var q := RestoreTurn(p, r.threadId);
            if HeldTurnEnds(p, r)
            then q.active == p.active && q.parked == p.parked - {r.threadId}
                 && q.prompts == (if p.active == Some(r.threadId) then [] else p.prompts)
            else SamePrompts(p, q)
  {
  }

  // ---- what waits for a conversation ------------------------------------------------------------

  function ParkedFor(p: Page, t: ThreadId): seq<Prompt> {
    GetOr(p.parked, t, [])
  }

  function ShownFor(p: Page, t: ThreadId): seq<Prompt> {
    if p.active == Some(t) then p.prompts else []
  }

  /** A conversation's waiting prompts, oldest first: the parked ones, then the shown ones. */
  function Waiting(p: Page, t: ThreadId): seq<Prompt> {
    ParkedFor(p, t) + ShownFor(p, t)
  }

  /** The steps that end a turn of `t`, which alone drop its prompts unanswered. */
  predicate EndsTurnOf(s: Sys, step: Step, t: ThreadId)
    requires Possible(s, step)
  {
    match step
    case Turn(e) => e.threadId == t && Ends(s.page, e)
    case Respond(r, _) => r.threadId == t && !s.call.retry && HeldTurnEnds(s.page, r)
    case Reload(list, _) =>
      s.call.result.threadId == t && (Finished(list, s.call.result.assistantId) || HeldTurnEnds(s.page, s.call.result))
    case _ => false
  }

  /** What a step does to the prompts waiting for `t`. */
  function NextWaiting(s: Sys, step: Step, t: ThreadId): seq<Prompt>
    requires Possible(s, step)
  {
    if EndsTurnOf(s, step, t) then []
    else
      match step
      case Ask(u, x) =>
        if u == t && !(s.page.active == Some(t) && Asks(s.page.prompts, x.requestId))
        then Waiting(s.page, t) + [x] else Waiting(s.page, t)
      case Answer(id) => ParkedFor(s.page, t) + Without(ShownFor(s.page, t), id)
      case _ => Waiting(s.page, t)
  }

  /** The response's conversation change, as a sound page sees it. */
  lemma AdoptPrompts(s: Sys, r: Accepted, owner: Owner, t: ThreadId)
    requires PromptInv(s, owner) && (s.page.prompts == [] || s.page.active == Some(r.threadId))
    ensures var q := Adopt(s.page, r);
            Owned(q, owner) && q.active == Some(r.threadId) && Waiting(q, t) == Waiting(s.page, t)
  {
    var there := s.page.(active := Some(r.threadId));
    assert Waiting(there, t) == Waiting(s.page, t) by {
      assert t != r.threadId ==> ShownFor(s.page, t) == [] || s.page.active == Some(t);
    }
    assert Owned(there, owner);
    UnparkedPrompts(there, owner, r.threadId, t);
  }

  lemma AdoptFrame(p: Page, r: Accepted)
    ensures Adopt(p, r).heldTurns == p.heldTurns && Adopt(p, r).setup == p.setup
  {
  }

  lemma MovePrompts(p: Page, owner: Owner, u: ThreadId, t: ThreadId)
    requires Owned(p, owner) && (p.active.None? ==> p.prompts == [])
    ensures var q := MoveTo(p, u);
            Owned(q, owner) && q.active == Some(u) && Waiting(q, t) == Waiting(p, t)
  {
    if p.active != Some(u) && p.active.Some? && p.prompts != [] {
      var left := p.active.value;
      var q := MoveTo(p, u);
      assert q.parked == p.parked[left := ParkedFor(p, left) + p.prompts];
    }
  }

  lemma UnparkedPrompts(p: Page, owner: Owner, u: ThreadId, t: ThreadId)
    requires Owned(p, owner) && p.active == Some(u)
    ensures var q := UnparkPrompts(p, u);
            Owned(q, owner) && q.active == Some(u) && Waiting(q, t) == Waiting(p, t)
  {
  }

  lemma OpenPrompts(p: Page, owner: Owner, u: ThreadId, t: ThreadId)
    requires Owned(p, owner) && (p.active.None? ==> p.prompts == [])
    ensures var q := Select(p, u);
            Owned(q, owner) && q.active == Some(u) && Waiting(q, t) == Waiting(p, t)
  {
    MovePrompts(p, owner, u, t);
    ShowPrompts(MoveTo(p, u), owner, u, t);
  }

  lemma ShowPrompts(p: Page, owner: Owner, u: ThreadId, t: ThreadId)
    requires Owned(p, owner) && p.active == Some(u)
    ensures var q := ShowSelected(p, u);
            Owned(q, owner) && q.active == Some(u) && Waiting(q, t) == Waiting(p, t)
  {
    UnparkedPrompts(p, owner, u, t);
    ToolPromptFrame(UnparkPrompts(p, u), Call(MessageId(""), u, "", "", ""), u);
  }

  lemma OpenedPrompts(p: Page, owner: Owner, u: ThreadId, list: seq<Row>, latest: bool, t: ThreadId)
    requires Owned(p, owner)
    ensures var q := SelectLoaded(p, u, list, latest);
            Owned(q, owner) && q.active == p.active && Waiting(q, t) == Waiting(p, t)
  {
    var loaded := p.(messages := p.messages[u := list]);
    assert SamePrompts(p, loaded);
    if latest && p.active == Some(u) {
      ShowPrompts(loaded, owner, u, t);
    }
  }

  lemma NewPrompts(p: Page, owner: Owner, modelLoading: bool, t: ThreadId)
    requires Owned(p, owner) && (p.active.None? ==> p.prompts == [])
    ensures var q := NewChat(p, modelLoading);
            Owned(q, owner) && (q.active.None? ==> q.prompts == []) && Waiting(q, t) == Waiting(p, t)
  {
    if !p.busy && !modelLoading && p.active.Some? && p.prompts != [] {
      var left := p.active.value;
      var q := NewChat(p, modelLoading);
      assert q.parked == p.parked[left := ParkedFor(p, left) + p.prompts] && q.prompts == [] && q.active.None?;
    }
  }

  lemma AskPrompts(p: Page, owner: Owner, u: ThreadId, x: Prompt, t: ThreadId)
    requires Owned(p, owner) && owner(x.requestId) == u
    ensures var q := OnPrompt(p, u, x);
            Owned(q, owner) && q.active == p.active
            && Waiting(q, t) == (if u == t && !(p.active == Some(t) && Asks(p.prompts, x.requestId))
                                 then Waiting(p, t) + [x] else Waiting(p, t))
  {
    if p.active != Some(u) {
      ParkedAsk(p, owner, u, x, t);
    } else {
      ShownAsk(p, owner, u, x, t);
    }
  }

  lemma ParkedAsk(p: Page, owner: Owner, u: ThreadId, x: Prompt, t: ThreadId)
    requires Owned(p, owner) && owner(x.requestId) == u && p.active != Some(u)
    ensures var q := OnPrompt(p, u, x);
            Owned(q, owner) && q.active == p.active
            && Waiting(q, t) == (if u == t then Waiting(p, t) + [x] else Waiting(p, t))
  {
    var q := OnPrompt(p, u, x);
    assert q.prompts == p.prompts && q.active == p.active && q.parked == p.parked[u := ParkedFor(p, u) + [x]];
    if u == t {
      assert ShownFor(q, t) == [] && ShownFor(p, t) == [];
    } else {
      assert ParkedFor(q, t) == ParkedFor(p, t) && ShownFor(q, t) == ShownFor(p, t);
    }
  }

  lemma ShownAsk(p: Page, owner: Owner, u: ThreadId, x: Prompt, t: ThreadId)
    requires Owned(p, owner) && owner(x.requestId) == u && p.active == Some(u)
    ensures var q := OnPrompt(p, u, x);
            Owned(q, owner) && q.active == p.active
            && Waiting(q, t) == (if u == t && !Asks(p.prompts, x.requestId) then Waiting(p, t) + [x] else Waiting(p, t))
  {
    if !Asks(p.prompts, x.requestId) {
      var q := OnPrompt(p, u, x);
      assert q.prompts == p.prompts + [x] && q.active == p.active && q.parked == p.parked;
      if u == t {
        assert Waiting(q, t) == Waiting(p, t) + [x];
      } else {
        assert ShownFor(q, t) == [] && ShownFor(p, t) == [];
      }
    }
  }

  lemma AnswerPrompts(p: Page, owner: Owner, id: string, t: ThreadId)
    requires Owned(p, owner)
    ensures var q := OnAnswered(p, id);
            Owned(q, owner) && q.active == p.active && Waiting(q, t) == ParkedFor(p, t) + Without(ShownFor(p, t), id)
  {
  }

  lemma EndPrompts(p: Page, q: Page, owner: Owner, u: ThreadId, t: ThreadId)
    requires Owned(p, owner)
    requires q.active == p.active && q.parked == p.parked - {u} && q.prompts == (if p.active == Some(u) then [] else p.prompts)
    ensures Owned(q, owner) && Waiting(q, t) == if t == u then [] else Waiting(p, t)
  {
  }

  // ---- every step -------------------------------------------------------------------------------

  lemma SamePromptsKept(s: Sys, s': Sys, owner: Owner, t: ThreadId)
    requires PromptInv(s, owner) && SamePrompts(s.page, s'.page)
    requires s'.call.Waiting? && !s'.call.retry ==> s'.call.request.threadId == s'.page.active
    ensures PromptInv(s', owner) && Waiting(s'.page, t) == Waiting(s.page, t)
  {
  }

  lemma RespondPrompts(s: Sys, step: Step, owner: Owner, t: ThreadId)
    requires TurnInv(s) && PromptInv(s, owner) && Possible(s, step) && Promised(s, step) && step.Respond?
    requires LandsAtHome(s, step)
    ensures PromptInv(Apply(s, step), owner) && Waiting(Apply(s, step).page, t) == NextWaiting(s, step, t)
  {
    var r := step.result;
    AdoptPrompts(s, r, owner, t);
    AdoptFrame(s.page, r);
    var adopted := Adopt(s.page, r);
    if !s.call.retry {
      SeedPrompts(adopted, r, s.call.request, step.modelId);
      var q := Seed(adopted, r, s.call.request, step.modelId);
      if HeldTurnEnds(s.page, r) {
        EndPrompts(adopted, q, owner, r.threadId, t);
      }
    }
  }

  lemma ReloadPrompts(s: Sys, list: seq<Row>, modelId: Option<string>, owner: Owner, t: ThreadId)
    requires TurnInv(s) && PromptInv(s, owner) && s.call.Reloading?
    ensures var step := Reload(list, modelId);
            PromptInv(Apply(s, step), owner) && Waiting(Apply(s, step).page, t) == NextWaiting(s, step, t)
  {
    var r := s.call.result;
    ReloadWaiting(s.page, r, s.call.request, modelId, list, owner, t);
    ReloadResult(s, list, modelId, RetryReloaded(s.page, r, s.call.request, modelId, list), owner);
  }

  lemma ReloadWaiting(
    p: Page, r: Accepted, request: Request, modelId: Option<string>, list: seq<Row>, owner: Owner, t: ThreadId)
    requires Owned(p, owner) && (p.active.None? ==> p.prompts == [])
    ensures var q := RetryReloaded(p, r, request, modelId, list);
            Owned(q, owner) && (q.active.None? ==> q.prompts == [])
            && Waiting(q, t) == if (Finished(list, r.assistantId) || HeldTurnEnds(p, r)) && t == r.threadId then []
                                else Waiting(p, t)
  {
    ReloadedPrompts(p, r, request, modelId, list);
    if Finished(list, r.assistantId) || HeldTurnEnds(p, r) {
      EndPrompts(p, RetryReloaded(p, r, request, modelId, list), owner, r.threadId, t);
    }
  }

  lemma ReloadResult(s: Sys, list: seq<Row>, modelId: Option<string>, q: Page, owner: Owner)
    requires s.call.Reloading? && q == RetryReloaded(s.page, s.call.result, s.call.request, modelId, list)
    requires Owned(q, owner) && (q.active.None? ==> q.prompts == [])
    ensures PromptInv(Apply(s, Reload(list, modelId)), owner) && Apply(s, Reload(list, modelId)).page == q
  {
  }

  lemma ReloadedPrompts(p: Page, r: Accepted, request: Request, modelId: Option<string>, list: seq<Row>)
    ensures var q := RetryReloaded(p, r, request, modelId, list);
            if Finished(list, r.assistantId) || HeldTurnEnds(p, r)
            then q.active == p.active && q.parked == p.parked - {r.threadId}
                 && q.prompts == (if p.active == Some(r.threadId) then [] else p.prompts)
            else SamePrompts(p, q)
  {
    if !Finished(list, r.assistantId) {
      SeedPrompts(p.(messages := p.messages[r.threadId := list]), r, request, modelId);
    }
  }

  lemma TurnPrompts(s: Sys, e: TurnEvent, owner: Owner, t: ThreadId)
    requires PromptInv(s, owner) && Possible(s, Turn(e))
    ensures PromptInv(Apply(s, Turn(e)), owner) && Waiting(Apply(s, Turn(e)).page, t) == NextWaiting(s, Turn(e), t)
  {
    if Ends(s.page, e) {
      EndPrompts(s.page, OnTurnComplete(s.page, e), owner, e.threadId, t);
    }
  }

  /**
   * Ownership and conservation: whatever step comes, shown prompts stay with the open conversation,
   * and what waits for a conversation changes only by an arrival, an answer given while it is open,
   * or the end of its own turn.
   */
  lemma PromptStep(s: Sys, step: Step, owner: Owner, t: ThreadId)
    requires TurnInv(s) && PromptInv(s, owner) && Possible(s, step) && Promised(s, step)
    requires AskedAtHome(step, owner) && LandsAtHome(s, step)
    ensures PromptInv(Apply(s, step), owner) && Waiting(Apply(s, step).page, t) == NextWaiting(s, step, t)
  {
    if step.Respond? {
      RespondPrompts(s, step, owner, t);
    } else if step.Reload? {
      ReloadPrompts(s, step.list, step.modelId, owner, t);
    } else if step.Turn? {
      TurnPrompts(s, step.turnEnd, owner, t);
    } else if step.Ask? || step.Answer? {
      DeskPrompts(s, step, owner, t);
    } else if step.New? {
      NewChatPrompts(s, step, owner, t);
    } else if step.Open? || step.Opened? {
      SwitchPrompts(s, step, owner, t);
    } else {
      PlainPrompts(s, step);
      SamePromptsKept(s, Apply(s, step), owner, t);
    }
  }

  lemma DeskPrompts(s: Sys, step: Step, owner: Owner, t: ThreadId)
    requires PromptInv(s, owner) && Possible(s, step) && AskedAtHome(step, owner) && (step.Ask? || step.Answer?)
    ensures PromptInv(Apply(s, step), owner) && Waiting(Apply(s, step).page, t) == NextWaiting(s, step, t)
  {
    if step.Ask? {
      AskPrompts(s.page, owner, step.thread, step.prompt, t);
    } else {
      AnswerPrompts(s.page, owner, step.requestId, t);
    }
  }

  lemma NewChatPrompts(s: Sys, step: Step, owner: Owner, t: ThreadId)
    requires TurnInv(s) && PromptInv(s, owner) && step.New?
    ensures PromptInv(Apply(s, step), owner) && Waiting(Apply(s, step).page, t) == NextWaiting(s, step, t)
  {
    NewPrompts(s.page, owner, step.modelLoading, t);
  }

  lemma SwitchPrompts(s: Sys, step: Step, owner: Owner, t: ThreadId)
    requires PromptInv(s, owner) && Promised(s, step) && (step.Open? || step.Opened?)
    ensures PromptInv(Apply(s, step), owner) && Waiting(Apply(s, step).page, t) == NextWaiting(s, step, t)
  {
    if step.Open? {
      OpenPrompts(s.page, owner, step.thread, t);
    } else {
      OpenedPrompts(s.page, owner, step.thread, step.list, step.latest, t);
    }
  }

  lemma PlainPrompts(s: Sys, step: Step)
    requires Possible(s, step)
    requires !step.Respond? && !step.Reload? && !step.Turn? && !step.Ask? && !step.Answer? && !step.New?
             && !step.Open? && !step.Opened?
    ensures SamePrompts(s.page, Apply(s, step).page)
    ensures Apply(s, step).call.Waiting? && !Apply(s, step).call.retry ==>
              (s.call.Waiting? && !s.call.retry && Apply(s, step).call.request == s.call.request)
              || Apply(s, step).call.request.threadId == s.page.active
  {
    match step
    case Token(id, delta, reasoning) => TokenPromptFrame(s.page, id, delta, reasoning);
    case Retry(id) => RetryPromptFrame(s.page, id);
    case Completed(e) => CompletePromptFrame(s.page, e);
    case Errored(e) => ErrorPromptFrame(s.page, e);
    case Tool(e) => ToolPromptFrame(s.page, e, e.threadId);
    case Refreshed(_, _) =>
    case ClosingLoaded(_) =>
    case ClosingFailed(_) =>
    case ClosingSettled(_) =>
    case Send(_, _, _, _, _) =>
    case Start(_) =>
    case Fail(_) =>
    case Report(_) =>
    case Compose(_, _) =>
  }

  // ---- answers ------------------------------------------------------------------------------------

  /**
   * An accepted answer filters the shown prompts only: of those that wait for a conversation it leaves one of
   * the answered request if and only if one is parked there, and it takes none of another request.
   */
  lemma AnswerRemovesIff(s: Sys, id: string, t: ThreadId)
    ensures var after := Apply(s, Answer(id)).page;
            (Asks(Waiting(after, t), id) <==> Asks(ParkedFor(s.page, t), id))
            && forall x :: x in Waiting(s.page, t) && x.requestId != id ==> x in Waiting(after, t)
  {
    var p, after := s.page, Apply(s, Answer(id)).page;
    assert Waiting(after, t) == ParkedFor(p, t) + (if p.active == Some(t) then Without(p.prompts, id) else []);
    var parked, shown := ParkedFor(p, t), ShownFor(after, t);
    AsksConcat(parked, shown, id);
    assert !Asks(shown, id);
  }

  lemma AsksConcat(a: seq<Prompt>, b: seq<Prompt>, id: string)
    ensures Asks(a + b, id) <==> Asks(a, id) || Asks(b, id)
  {
    if Asks(a, id) {
      var i :| 0 <= i < |a| && a[i].requestId == id;
      assert (a + b)[i] == a[i];
    }
    if Asks(b, id) {
      var i :| 0 <= i < |b| && b[i].requestId == id;
      assert (a + b)[|a| + i] == b[i];
    }
  }

  /** So an answer accepted after the user moved to another conversation leaves its prompt waiting at home. */
  lemma LateAnswerLeavesPrompt(s: Sys, owner: Owner, home: ThreadId, other: ThreadId, x: Prompt)
    requires PromptInv(s, owner) && s.page.active == Some(home) && home != other && x in s.page.prompts
    ensures x in Waiting(Apply(Apply(s, Open(other)), Answer(x.requestId)).page, home)
  {
    OpenPrompts(s.page, owner, other, home);
    var moved := Apply(s, Open(other));
    assert x in Waiting(s.page, home) && x in Waiting(moved.page, home);
    assert Waiting(moved.page, home) == ParkedFor(moved.page, home) + [];
  }

  /** A first send always lands where its prompts are shown. */
  lemma FirstSendLandsAtHome(s: Sys, step: Step, owner: Owner)
    requires PromptInv(s, owner) && Possible(s, step) && Promised(s, step) && step.Respond? && !s.call.retry
    ensures LandsAtHome(s, step)
  {
  }

  /**
   * A retry keeps prompts with their conversation exactly when none is shown or the accepted
   * conversation is the open one: nothing else stops `send` from moving the page under them.
   */
  lemma RetryOwnsIff(s: Sys, r: Accepted, modelId: Option<string>, owner: Owner)
    requires PromptInv(s, owner) && s.call.Waiting? && s.call.retry
    ensures Owned(Apply(s, Respond(r, modelId)).page, owner)
            <==> s.page.prompts == [] || s.page.active == Some(r.threadId)
  {
    var q := Adopt(s.page, r);
    if s.page.prompts == [] || s.page.active == Some(r.threadId) {
      AdoptPrompts(s, r, owner, r.threadId);
    } else {
      var x := s.page.prompts[|s.page.prompts| - 1];
      assert x in s.page.prompts && x in q.prompts;
      assert owner(x.requestId) != r.threadId;
    }
  }

  // ---- whole runs -------------------------------------------------------------------------------

  /** The run keeps the promises about prompts and never moves the page under shown ones. */
  ghost predicate AtHome(s: Sys, steps: seq<Step>, owner: Owner)
    requires Allowed(s, steps)
    decreases |steps|
  {
    steps != [] ==>
      AskedAtHome(steps[0], owner) && LandsAtHome(s, steps[0]) && AtHome(Apply(s, steps[0]), steps[1..], owner)
  }

  /** No step of the run ends a turn of `t`. */
  ghost predicate Unended(s: Sys, steps: seq<Step>, t: ThreadId)
    requires Allowed(s, steps)
    decreases |steps|
  {
    steps != [] ==> !EndsTurnOf(s, steps[0], t) && Unended(Apply(s, steps[0]), steps[1..], t)
  }

  lemma WithoutKeeps(prompts: seq<Prompt>, x: Prompt, id: string)
    requires x in prompts && x.requestId != id
    ensures x in Without(prompts, id)
  {
  }

  /** A waiting prompt stays until it is answered or its own conversation's turn ends, whoever moves where. */
  lemma {:induction false} PromptStays(s: Sys, steps: seq<Step>, owner: Owner, t: ThreadId, x: Prompt)
    requires TurnInv(s) && PromptInv(s, owner) && Allowed(s, steps) && AtHome(s, steps, owner) && Unended(s, steps, t)
    requires x in Waiting(s.page, t)
    requires forall i :: 0 <= i < |steps| ==> steps[i] != Answer(x.requestId)
    ensures x in Waiting(Exec(s, steps).page, t)
    decreases |steps|
  {
    if steps != [] {
      var step := steps[0];
      PromptStep(s, step, owner, t);
      StepPreserves(s, step);
      assert x in NextWaiting(s, step, t) by {
        if step.Answer? && x in ShownFor(s.page, t) {
          WithoutKeeps(ShownFor(s.page, t), x, step.requestId);
        }
      }
      PromptStays(Apply(s, step), steps[1..], owner, t, x);
    }
  }

  /** The prompts a run asks of `t`. */
  function AskedOf(steps: seq<Step>, t: ThreadId): seq<Prompt> {
    if steps == [] then [] else AskedIn(steps[0], t) + AskedOf(steps[1..], t)
  }

  function AskedIn(step: Step, t: ThreadId): seq<Prompt> {
    if step.Ask? && step.thread == t then [step.prompt] else []
  }

  function RequestIds(prompts: seq<Prompt>): (ids: seq<string>)
    ensures |ids| == |prompts|
  {
    seq(|prompts|, i requires 0 <= i < |prompts| => prompts[i].requestId)
  }

  /** Unanswered, prompts wait in arrival order, each once, however they were parked and shown between. */
  lemma {:induction false} PromptsKeepOrder(s: Sys, steps: seq<Step>, owner: Owner, t: ThreadId)
    requires TurnInv(s) && PromptInv(s, owner) && Allowed(s, steps) && AtHome(s, steps, owner) && Unended(s, steps, t)
    requires forall i :: 0 <= i < |steps| ==> !steps[i].Answer?
    requires Distinct(RequestIds(Waiting(s.page, t) + AskedOf(steps, t)))
    ensures Waiting(Exec(s, steps).page, t) == Waiting(s.page, t) + AskedOf(steps, t)
    decreases |steps|
  {
    if steps == [] {
      assert Waiting(s.page, t) + AskedOf(steps, t) == Waiting(s.page, t);
    } else {
      var step, rest := steps[0], steps[1..];
      PromptStep(s, step, owner, t);
      StepPreserves(s, step);
      var asked := AskedIn(step, t);
      var now := Waiting(s.page, t);
      Regroup(now, asked, AskedOf(rest, t));
      assert NextWaiting(s, step, t) == now + asked by {
        if asked != [] {
          NewRequest(s.page, t, step.prompt, AskedOf(rest, t));
        } else {
          assert now + asked == now;
        }
      }
      PromptsKeepOrder(Apply(s, step), rest, owner, t);
    }
  }

  lemma NewRequest(p: Page, t: ThreadId, x: Prompt, more: seq<Prompt>)
    requires Distinct(RequestIds(Waiting(p, t) + [x] + more))
    ensures p.active == Some(t) ==> !Asks(p.prompts, x.requestId)
  {
    var all := Waiting(p, t) + [x] + more;
    assert all[|Waiting(p, t)|] == x;
    if p.active == Some(t) {
      forall i | 0 <= i < |p.prompts| ensures p.prompts[i].requestId != x.requestId {
        var k := |ParkedFor(p, t)| + i;
        assert all[k] == p.prompts[i];
        assert RequestIds(all)[k] != RequestIds(all)[|Waiting(p, t)|];
      }
    }
  }

  lemma Regroup(a: seq<Prompt>, b: seq<Prompt>, c: seq<Prompt>)
    ensures a + (b + c) == a + b + c
  {
  }

  /** A lost send is retried from the conversation `home`, which shows a prompt. */
  lemma RetryFromElsewhere(s: Sys, owner: Owner, home: ThreadId, x: Prompt) returns (steps: seq<Step>)
    requires !s.page.busy && s.call.NoCall? && s.page.pendingSend == Some(Hazards.REQUEST)
    requires s.page.active == Some(home) && home != Hazards.T && s.page.prompts == [x] && s.page.parked == map[]
    requires owner(x.requestId) == home
    ensures PossibleRun(s, steps) && !Owned(RunTo(s, steps).page, owner)
    ensures forall i :: 0 <= i < |steps| ==> !steps[i].Ask?
  {
    var again, answered := Send(true, false, "", None, None), Respond(Hazards.TURN, None);
    var s1 := Apply(s, again);
    assert s1.call == Call.Waiting(Hazards.REQUEST, true, None) && s1.page.prompts == [x];
    assert s1.page.active == Some(home) && s1.page.parked == map[];
    assert PromptInv(s1, owner);
    RetryOwnsIff(s1, Hazards.TURN, None, owner);
    var s2 := Apply(s1, answered);
    assert PossibleRun(s2, []);
    Hazards.Then(s1, answered, []);
    var r1 := [answered] + [];
    Hazards.Then(s, again, r1);
    steps := [again] + r1;
  }

  /** A prompt asked in a conversation just opened is shown there. */
  lemma OpenAndAsk(s: Sys, home: ThreadId, x: Prompt) returns (end: Sys)
    requires s.page.prompts == [] && s.page.active.None? && s.page.parked == map[] && home !in s.page.messages
    ensures PossibleRun(s, [Open(home), Ask(home, x)]) && RunTo(s, [Open(home), Ask(home, x)]) == end
    ensures end == s.(page := end.page)
    ensures end.page == s.page.(active := Some(home), prompts := [x])
  {
    var s1 := Apply(s, Open(home));
    assert s1.page == s.page.(active := Some(home));
    end := Apply(s1, Ask(home, x));
    assert PossibleRun(end, []);
    Hazards.Then(s1, Ask(home, x), []);
    Hazards.Then(s, Open(home), [Ask(home, x)] + []);
    assert [Open(home)] + ([Ask(home, x)] + []) == [Open(home), Ask(home, x)];
  }

  /** A lost send is retried from a conversation opened in between, in which a prompt is asked. */
  lemma AskedElsewhere(s: Sys, owner: Owner, home: ThreadId, x: Prompt) returns (steps: seq<Step>)
    requires s.page == Hazards.UNSENT && s.call.NoCall? && owner(x.requestId) == home && home != Hazards.T
    ensures PossibleRun(s, steps) && !Owned(RunTo(s, steps).page, owner) && AllAtHome(steps, owner)
  {
    var asked := [Open(home), Ask(home, x)];
    var s1 := OpenAndAsk(s, home, x);
    var moved := RetryFromElsewhere(s1, owner, home, x);
    Hazards.Follow(s, asked, moved);
    AllAtHomeConcat(asked, moved, owner);
    steps := asked + moved;
  }

  /** Where prompts end up under a foreign conversation: a lost send is retried from another one. */
  lemma RetryMovesPrompts(owner: Owner, home: ThreadId, x: Prompt)
    requires owner(x.requestId) == home && home != Hazards.T
    ensures exists steps :: PossibleRun(INITIAL, steps) && !Owned(RunTo(INITIAL, steps).page, owner)
                            && forall i :: 0 <= i < |steps| ==> AskedAtHome(steps[i], owner)
  {
    Hazards.LossReaches();
    var rest := AskedElsewhere(RunTo(INITIAL, Hazards.AFTER_LOSS), owner, home, x);
    Hazards.Follow(INITIAL, Hazards.AFTER_LOSS, rest);
    AllAtHomeConcat(Hazards.AFTER_LOSS, rest, owner);
    var steps := Hazards.AFTER_LOSS + rest;
    assert AllAtHome(steps, owner);
  }

  ghost predicate AllAtHome(steps: seq<Step>, owner: Owner) {
    forall i :: 0 <= i < |steps| ==> AskedAtHome(steps[i], owner)
  }

  lemma AllAtHomeConcat(a: seq<Step>, b: seq<Step>, owner: Owner)
    requires AllAtHome(a, owner) && AllAtHome(b, owner)
    ensures AllAtHome(a + b, owner)
  {
  }
}
