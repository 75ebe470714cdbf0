/**
 * The order of a thread's rows: after a first send the turn's user and assistant rows come first and
 * its tool rows follow in arrival order, each once, wherever the response fell among the tool events
 * and whichever conversations were opened meanwhile.
 */
module TranscriptOrder {
  import opened Base
  import opened ChatTypes
  import opened Rows
  import opened PageSteps
  import opened ChatSystem
  import opened TurnProtocol

  /** The tool events of a thread in a run, in arrival order. */
  function ToolsOf(steps: seq<Step>, t: ThreadId): seq<ToolEvent> {
    if steps == [] then [] else ToolsIn(steps[0], t) + ToolsOf(steps[1..], t)
  }

  function ToolsIn(step: Step, t: ThreadId): seq<ToolEvent> {
    if step.Tool? && step.tool.threadId == t then [step.tool] else []
  }

  function Listed(p: Page, t: ThreadId): seq<Row> {
    GetOr(p.messages, t, [])
  }

  function Queued(p: Page, t: ThreadId): seq<ToolEvent> {
    GetOr(p.heldTools, t, [])
  }

  // ---- before the response ----------------------------------------------------------------------

  /** A first send waits for its response: the list is untouched and every tool event is held. */
  predicate Before(s: Sys, t: ThreadId, list: seq<Row>, arrived: seq<ToolEvent>) {
    s.call.Waiting? && !s.call.retry && Listed(s.page, t) == list && Queued(s.page, t) == arrived
  }

  lemma BeforeStep(s: Sys, step: Step, t: ThreadId, list: seq<Row>, arrived: seq<ToolEvent>)
    requires TurnInv(s) && Possible(s, step) && Promised(s, step)
    requires Before(s, t, list, arrived) && !step.Respond? && !step.Fail?
    ensures Before(Apply(s, step), t, list, arrived + ToolsIn(step, t))
  {
    match step
    case Token(id, delta, reasoning) => TokenKeeps(s.page, id, delta, reasoning);
    case Retry(id) => RetryKeeps(s.page, id);
    case Completed(e) => CompleteKeeps(s.page, e);
    case Errored(e) => ErrorKeeps(s.page, e);
    case Tool(e) => HeldTool(s.page, e, t);
    case _ =>
  }

  lemma HeldTool(p: Page, e: ToolEvent, t: ThreadId)
    requires p.setup
    ensures Listed(OnTool(p, e), t) == Listed(p, t)
    ensures Queued(OnTool(p, e), t) == Queued(p, t) + ToolsIn(Tool(e), t)
  {
  }

  // ---- after the response -----------------------------------------------------------------------

  /** The turn streams into `t`: its rows, with what is still held for it, read as `order`. */
  predicate After(s: Sys, t: ThreadId, order: seq<MessageId>) {
    s.call.NoCall? && Reads(s.page, t, order)
  }

  predicate Reads(p: Page, t: ThreadId, order: seq<MessageId>) {
    p.streamingThread == Some(t) && t in p.messages
    && AddNew(Ids(p.messages[t]), EventIds(Queued(p, t))) == order
    && (p.active == Some(t) ==> t !in p.heldTools)
  }

  /** Same ids, same held events, same open thread: the same reading. */
  lemma SameReading(p: Page, q: Page, t: ThreadId, order: seq<MessageId>)
    requires Reads(p, t, order)
    requires t in q.messages && Ids(q.messages[t]) == Ids(p.messages[t])
    requires Queued(q, t) == Queued(p, t) && (t in q.heldTools ==> t in p.heldTools)
    requires q.streamingThread == p.streamingThread && q.active == p.active
    ensures Reads(q, t, order)
  {
  }

  lemma EventIdsConcat(a: seq<ToolEvent>, b: seq<ToolEvent>)
    ensures EventIds(a + b) == EventIds(a) + EventIds(b)
  {
  }

  lemma OnToolFrame(p: Page, e: ToolEvent)
    ensures OnTool(p, e).active == p.active && OnTool(p, e).streamingThread == p.streamingThread
  {
  }

  lemma ShownTool(p: Page, e: ToolEvent)
    requires p.active == Some(e.threadId) && !p.setup && e.threadId in p.messages
    ensures var q := OnTool(p, e);
            e.threadId in q.messages && q.messages[e.threadId] == AddTool(p.messages[e.threadId], e)
            && q.heldTools == p.heldTools
  {
    AddRowsAt(p.messages, e.threadId, [e]);
    AddToolsOne(p.messages[e.threadId], e);
  }

  lemma QueuedTool(p: Page, e: ToolEvent)
    requires p.active != Some(e.threadId)
    ensures OnTool(p, e).messages == p.messages && Queued(OnTool(p, e), e.threadId) == Queued(p, e.threadId) + [e]
  {
  }

  lemma OwnToolReading(p: Page, e: ToolEvent, order: seq<MessageId>)
    requires Reads(p, e.threadId, order) && !p.setup
    ensures Reads(OnTool(p, e), e.threadId, AddNew(order, [e.messageId]))
  {
    var t, q := e.threadId, OnTool(p, e);
    OnToolFrame(p, e);
    var ids := EventIds(Queued(p, t));
    AddNewConcat(Ids(p.messages[t]), ids, [e.messageId]);
    if p.active == Some(t) {
      ShownTool(p, e);
      AddToolIds(p.messages[t], e);
      assert ids == [] && EventIds(Queued(q, t)) == [];
    } else {
      QueuedTool(p, e);
      EventIdsConcat(Queued(p, t), [e]);
      assert EventIds([e]) == [e.messageId];
    }
  }

  lemma OtherTool(p: Page, e: ToolEvent, t: ThreadId)
    requires e.threadId != t && t in p.messages
    ensures t in OnTool(p, e).messages && OnTool(p, e).messages[t] == p.messages[t]
  {
    AddRowsAt(p.messages, e.threadId, [e]);
  }

  lemma OtherToolQueue(p: Page, e: ToolEvent, t: ThreadId)
    requires e.threadId != t
    ensures Queued(OnTool(p, e), t) == Queued(p, t) && (t in OnTool(p, e).heldTools <==> t in p.heldTools)
  {
  }

  lemma OtherToolReading(p: Page, e: ToolEvent, t: ThreadId, order: seq<MessageId>)
    requires Reads(p, t, order) && e.threadId != t
    ensures Reads(OnTool(p, e), t, order)
  {
    OnToolFrame(p, e);
    OtherTool(p, e, t);
    OtherToolQueue(p, e, t);
    SameReading(p, OnTool(p, e), t, order);
  }

  lemma ToolReading(p: Page, e: ToolEvent, t: ThreadId, order: seq<MessageId>)
    requires Reads(p, t, order) && !p.setup
    ensures Reads(OnTool(p, e), t, AddNew(order, EventIds(ToolsIn(Tool(e), t))))
  {
    if e.threadId == t {
      OwnToolReading(p, e, order);
      assert EventIds(ToolsIn(Tool(e), t)) == [e.messageId];
    } else {
      OtherToolReading(p, e, t, order);
      assert EventIds(ToolsIn(Tool(e), t)) == [];
    }
  }

  lemma RestoreReading(p: Page, u: ThreadId, t: ThreadId, order: seq<MessageId>)
    requires p.streamingThread == Some(t) && t in p.messages
    requires AddNew(Ids(p.messages[t]), EventIds(Queued(p, t))) == order
    ensures var q := RestoreTools(p, u);
            t in q.messages && AddNew(Ids(q.messages[t]), EventIds(Queued(q, t))) == order
            && q.streamingThread == Some(t)
  {
    RestoreToolsKeeps(p, u);
    if u == t {
      AddToolsIds(p.messages[t], Queued(p, t));
      assert EventIds([]) == [];
    }
  }

  lemma OpenReading(p: Page, u: ThreadId, t: ThreadId, order: seq<MessageId>)
    requires Reads(p, t, order)
    ensures Reads(Select(p, u), t, order)
  {
    var moved := MoveTo(p, u);
    MovedKeeps(p, u);
    if u in p.messages {
      ShownReading(moved, u, t, order);
    } else {
      assert u != t;
    }
  }

  lemma ShownReading(p: Page, u: ThreadId, t: ThreadId, order: seq<MessageId>)
    requires p.streamingThread == Some(t) && t in p.messages && p.active == Some(u)
    requires AddNew(Ids(p.messages[t]), EventIds(Queued(p, t))) == order
    ensures Reads(ShowSelected(p, u), t, order)
  {
    UnparkKeeps(p, u);
    var unparked := UnparkPrompts(p, u);
    assert Queued(unparked, t) == Queued(p, t);
    RestoreReading(unparked, u, t, order);
    RestoreToolsKeeps(unparked, u);
    assert RestoreTools(unparked, u).active == Some(u);
  }

  lemma OpenedReading(p: Page, u: ThreadId, list: seq<Row>, latest: bool, t: ThreadId, order: seq<MessageId>)
    requires Reads(p, t, order) && u != t
    ensures Reads(SelectLoaded(p, u, list, latest), t, order)
  {
    var loaded := p.(messages := p.messages[u := list]);
    SameReading(p, loaded, t, order);
    if latest && p.active == Some(u) {
      ShownReading(loaded, u, t, order);
    }
  }

  /** A list awaited by `selectThread` that arrives for `t` reads, with what is held for `t`, as `order`. */
  predicate LateListReads(s: Sys, step: Step, t: ThreadId, order: seq<MessageId>) {
    step.Opened? && step.thread == t ==> AddNew(Ids(step.list), EventIds(Queued(s.page, t))) == order
  }

  /** It keeps the order if and only if it has it: the code installs the list whatever it says. */
  lemma LateListReadsIff(s: Sys, list: seq<Row>, latest: bool, t: ThreadId, order: seq<MessageId>)
    requires After(s, t, order)
    ensures var step := Opened(t, list, latest);
            After(Apply(s, step), t, order) <==> LateListReads(s, step, t, order)
  {
    var p := s.page;
    var loaded := p.(messages := p.messages[t := list]);
    if latest && p.active == Some(t) {
      ShownListReads(loaded, t, list);
    }
  }

  /** Shown in the open thread, the list is followed by the rows of the queued tool events. */
  lemma ShownListReads(p: Page, t: ThreadId, list: seq<Row>)
    requires t in p.messages && p.messages[t] == list
    ensures var q := ShowSelected(p, t);
            q.streamingThread == p.streamingThread && q.active == p.active && t !in q.heldTools && t in q.messages
            && AddNew(Ids(q.messages[t]), EventIds(Queued(q, t))) == AddNew(Ids(list), EventIds(Queued(p, t)))
  {
    UnparkKeeps(p, t);
    RestoreToolsKeeps(UnparkPrompts(p, t), t);
    AddToolsIds(list, Queued(p, t));
    assert EventIds([]) == [];
  }

  lemma EventReading(s: Sys, step: Step, t: ThreadId, order: seq<MessageId>)
    requires Possible(s, step) && After(s, t, order)
    requires step.Token? || step.Retry? || step.Completed? || step.Errored?
    ensures After(Apply(s, step), t, order)
  {
    match step
    case Token(id, delta, reasoning) =>
      TokenKeeps(s.page, id, delta, reasoning);
      SameReading(s.page, OnToken(s.page, id, delta, reasoning), t, order);
    case Retry(id) =>
      RetryKeeps(s.page, id);
      SameReading(s.page, OnRetry(s.page, id), t, order);
    case Completed(e) =>
      CompleteKeeps(s.page, e);
      SameReading(s.page, OnComplete(s.page, e), t, order);
    case Errored(e) =>
      ErrorKeeps(s.page, e);
      SameReading(s.page, OnError(s.page, e), t, order);
  }

  lemma AfterStep(s: Sys, step: Step, t: ThreadId, order: seq<MessageId>)
    requires TurnInv(s) && Possible(s, step) && Promised(s, step)
    requires After(s, t, order) && !ClosingStep(step) && LateListReads(s, step, t, order)
    ensures After(Apply(s, step), t, AddNew(order, EventIds(ToolsIn(step, t))))
  {
    assert !step.Tool? ==> EventIds(ToolsIn(step, t)) == [];
    match step
    case Token(_, _, _) => EventReading(s, step, t, order);
    case Retry(_) => EventReading(s, step, t, order);
    case Completed(_) => EventReading(s, step, t, order);
    case Errored(_) => EventReading(s, step, t, order);
    case Tool(e) => ToolReading(s.page, e, t, order);
    case Turn(e) =>
      BeginCloseKeeps(s.page, e);
      SameReading(s.page, OnTurnComplete(s.page, e), t, order);
    case Open(u) => OpenReading(s.page, u, t, order);
    case Opened(u, list, latest) =>
      if u == t {
        LateListReadsIff(s, list, latest, t, order);
      } else {
        OpenedReading(s.page, u, list, latest, t, order);
      }
    case _ => OtherReading(s, step, t, order);
  }

  lemma OtherReading(s: Sys, step: Step, t: ThreadId, order: seq<MessageId>)
    requires TurnInv(s) && Possible(s, step) && After(s, t, order)
    requires step.Send? || step.Start? || step.Respond? || step.Reload? || step.Fail? || step.Ask? || step.Answer?
             || step.New? || step.Refreshed? || step.Report? || step.Compose?
    ensures After(Apply(s, step), t, order)
  {
    if step.Ask? {
      AskReading(s.page, step.thread, step.prompt, t, order);
    } else if step.Refreshed? {
      RefreshedReading(s.page, step.thread, step.list, t, order);
    } else if step.Answer? || step.Report? || step.Compose? {
      DraftReading(s, step, t, order);
    } else {
      BusyRefuses(s, step);
    }
  }

  lemma DraftReading(s: Sys, step: Step, t: ThreadId, order: seq<MessageId>)
    requires Possible(s, step) && After(s, t, order) && (step.Answer? || step.Report? || step.Compose?)
    ensures After(Apply(s, step), t, order)
  {
    SameReading(s.page, Apply(s, step).page, t, order);
  }

  lemma BusyRefuses(s: Sys, step: Step)
    requires Possible(s, step) && s.page.busy && s.call.NoCall?
    requires step.Send? || step.Start? || step.Respond? || step.Reload? || step.Fail? || step.New?
    ensures Apply(s, step) == s
  {
  }

  lemma RefreshedReading(p: Page, u: ThreadId, list: seq<Row>, t: ThreadId, order: seq<MessageId>)
    requires Reads(p, t, order)
    ensures Reads(ListRefreshed(p, u, list), t, order)
  {
  }

  lemma AskReading(p: Page, u: ThreadId, prompt: Prompt, t: ThreadId, order: seq<MessageId>)
    requires Reads(p, t, order)
    ensures Reads(OnPrompt(p, u, prompt), t, order)
  {
  }

  // ---- the response -----------------------------------------------------------------------------

  lemma SeedRowsIds(list: seq<Row>, r: Accepted, content: string, modelId: Option<string>, mode: Option<Mode>)
    requires r.userId != r.assistantId && !Has(list, r.userId) && !Has(list, r.assistantId)
    ensures Ids(SeedRows(list, r, content, modelId, mode)) == Ids(list) + [r.userId, r.assistantId]
  {
    AppendIndex(list, UserRow(r, content), r.assistantId);
  }

  lemma SeedReading(p: Page, r: Accepted, request: Request, modelId: Option<string>)
    requires r.userId != r.assistantId
    requires !Has(Listed(p, r.threadId), r.userId) && !Has(Listed(p, r.threadId), r.assistantId)
    ensures Reads(Seed(p, r, request, modelId), r.threadId,
                  AddNew(Ids(Listed(p, r.threadId)) + [r.userId, r.assistantId], EventIds(Queued(p, r.threadId))))
  {
    var seeded := SeedStream(p, r, request.content, modelId, request.autonomyMode);
    SeedRowsIds(Listed(p, r.threadId), r, request.content, modelId, request.autonomyMode);
    assert seeded.heldTools == p.heldTools && !seeded.setup && IsStreamed(seeded, r);
    SeedTailReading(seeded, r, AddNew(Ids(seeded.messages[r.threadId]), EventIds(Queued(p, r.threadId))));
  }

  lemma SeedTailReading(seeded: Page, r: Accepted, order: seq<MessageId>)
    requires IsStreamed(seeded, r) && !seeded.setup && r.threadId in seeded.messages
    requires AddNew(Ids(seeded.messages[r.threadId]), EventIds(Queued(seeded, r.threadId))) == order
    ensures Reads(RestoreTurn(RestoreStream(RestoreTools(seeded, r.threadId), r.assistantId), r.threadId),
                  r.threadId, order)
  {
    RestoreReading(seeded, r.threadId, r.threadId, order);
    RestoreToolsKeeps(seeded, r.threadId);
    StreamTailReading(RestoreTools(seeded, r.threadId), r, order);
  }

  lemma StreamTailReading(tooled: Page, r: Accepted, order: seq<MessageId>)
    requires IsStreamed(tooled, r) && !tooled.setup && Reads(tooled, r.threadId, order)
    requires r.threadId !in tooled.heldTools
    ensures Reads(RestoreTurn(RestoreStream(tooled, r.assistantId), r.threadId), r.threadId, order)
  {
    RestoreStreamKeeps(tooled, r.assistantId);
    var streamed := RestoreStream(tooled, r.assistantId);
    RestoreTurnKeeps(streamed, r.threadId);
    assert SameIds(tooled.messages, streamed.messages);
  }

  // ---- whole runs -------------------------------------------------------------------------------

  lemma {:induction false} BeforeRun(s: Sys, steps: seq<Step>, t: ThreadId, list: seq<Row>, arrived: seq<ToolEvent>)
    requires TurnInv(s) && Allowed(s, steps) && Before(s, t, list, arrived)
    requires forall i :: 0 <= i < |steps| ==> !steps[i].Respond? && !steps[i].Fail?
    ensures TurnInv(Exec(s, steps)) && Before(Exec(s, steps), t, list, arrived + ToolsOf(steps, t))
    decreases |steps|
  {
    if steps == [] {
      assert arrived + ToolsOf(steps, t) == arrived;
    } else {
      var step, rest := steps[0], steps[1..];
      var next := Apply(s, step);
      BeforeStep(s, step, t, list, arrived);
      StepPreserves(s, step);
      BeforeRun(next, rest, t, list, arrived + ToolsIn(step, t));
      assert (arrived + ToolsIn(step, t)) + ToolsOf(rest, t) == arrived + (ToolsIn(step, t) + ToolsOf(rest, t));
    }
  }

  ghost predicate LateListsRead(s: Sys, steps: seq<Step>, t: ThreadId, order: seq<MessageId>)
    requires Allowed(s, steps)
    decreases |steps|
  {
    steps != [] ==>
      LateListReads(s, steps[0], t, order)
      && LateListsRead(Apply(s, steps[0]), steps[1..], t, AddNew(order, EventIds(ToolsIn(steps[0], t))))
  }

  lemma {:induction false} AfterRun(s: Sys, steps: seq<Step>, t: ThreadId, order: seq<MessageId>)
    requires TurnInv(s) && Allowed(s, steps) && After(s, t, order)
    requires LateListsRead(s, steps, t, order)
    requires forall i :: 0 <= i < |steps| ==> !ClosingStep(steps[i])
    ensures TurnInv(Exec(s, steps)) && After(Exec(s, steps), t, AddNew(order, EventIds(ToolsOf(steps, t))))
    decreases |steps|
  {
    if steps == [] {
      assert EventIds(ToolsOf(steps, t)) == [];
    } else {
      var step, rest := steps[0], steps[1..];
      var own := EventIds(ToolsIn(step, t));
      AfterStep(s, step, t, order);
      StepPreserves(s, step);
      AfterRun(Apply(s, step), rest, t, AddNew(order, own));
      AddNewConcat(order, own, EventIds(ToolsOf(rest, t)));
      EventIdsConcat(ToolsIn(step, t), ToolsOf(rest, t));
    }
  }

  lemma RespondReading(s: Sys, r: Accepted, modelId: Option<string>, list: seq<Row>, held: seq<ToolEvent>)
    requires TurnInv(s) && Before(s, r.threadId, list, held)
    requires Possible(s, Respond(r, modelId)) && Promised(s, Respond(r, modelId))
    ensures After(Apply(s, Respond(r, modelId)), r.threadId,
                  AddNew(Ids(list) + [r.userId, r.assistantId], EventIds(held)))
  {
    var adopted := Adopt(s.page, r);
    assert adopted.messages == s.page.messages && adopted.heldTools == s.page.heldTools;
    SeedReading(adopted, r, s.call.request, modelId);
  }

  /**
   * The order of an accepted first send. Start where `send` waits for its response, let any steps
   * come before and after that response, the turn's thread being open at the end: its rows are the old
   * ones, the turn's user and assistant rows, and one row per tool event in arrival order. A list awaited
   * by `selectThread` that arrives for the thread has to have that order itself (`LateListReadsIff`).
   */
  lemma FirstSendOrder(s: Sys, before: seq<Step>, r: Accepted, modelId: Option<string>, after: seq<Step>)
    requires TurnInv(s) && s.call.Waiting? && !s.call.retry
    requires Allowed(s, before) && Possible(Exec(s, before), Respond(r, modelId))
    requires Promised(Exec(s, before), Respond(r, modelId))
    requires Allowed(Apply(Exec(s, before), Respond(r, modelId)), after)
    requires forall i :: 0 <= i < |before| ==> !before[i].Respond? && !before[i].Fail?
    requires forall i :: 0 <= i < |after| ==> !ClosingStep(after[i])
    requires LateListsRead(Apply(Exec(s, before), Respond(r, modelId)), after, r.threadId,
                           AddNew(Ids(Listed(s.page, r.threadId)) + [r.userId, r.assistantId],
                                  EventIds(Queued(s.page, r.threadId) + ToolsOf(before, r.threadId))))
    ensures var end := Exec(Apply(Exec(s, before), Respond(r, modelId)), after).page; var t := r.threadId;
            end.active == Some(t) ==>
              t in end.messages
              && Ids(end.messages[t]) ==
                 AddNew(Ids(Listed(s.page, t)) + [r.userId, r.assistantId],
                        EventIds(Queued(s.page, t) + ToolsOf(before, t) + ToolsOf(after, t)))
  {
    var t := r.threadId;
    var mid := Exec(s, before);
    BeforeRun(s, before, t, Listed(s.page, t), Queued(s.page, t));
    var held := Queued(s.page, t) + ToolsOf(before, t);
    RespondReading(mid, r, modelId, Listed(s.page, t), held);
    StepPreserves(mid, Respond(r, modelId));
    var base := Ids(Listed(s.page, t)) + [r.userId, r.assistantId];
    AfterRun(Apply(mid, Respond(r, modelId)), after, t, AddNew(base, EventIds(held)));
    AddNewConcat(base, EventIds(held), EventIds(ToolsOf(after, t)));
    EventIdsConcat(held, ToolsOf(after, t));
    assert EventIds([]) == [];
  }
}
