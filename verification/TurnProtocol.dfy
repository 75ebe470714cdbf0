/**
 * The life of a turn: which flags may be set together, why a busy page always has something still
 * to come, and that every turn can end idle. Also the states in which that fails, and exactly when.
 */
module TurnProtocol {
  import opened Base
  import opened ChatTypes
  import opened Rows
  import opened PageSteps
  import opened ChatSystem

  // ---- invariants -------------------------------------------------------------------------------

  /** Turn setup implies busy; both streaming ids are set together, only while busy and after setup. */
  predicate Flags(p: Page) {
    (p.setup ==> p.busy)
    && (p.streamingMessage.Some? <==> p.streamingThread.Some?)
    && (p.streamingMessage.Some? ==> p.busy && !p.setup)
  }

  predicate Idle(p: Page) {
    !p.busy && !p.setup && p.streamingMessage.None? && p.streamingThread.None?
  }

  /** The turn `r` is the one the page streams. */
  predicate IsStreamed(p: Page, r: Accepted) {
    p.streamingThread == Some(r.threadId) && p.streamingMessage == Some(r.assistantId)
  }

  ghost predicate Closes(s: Sys) {
    |s.closings| <= 1
    && (s.closings != [] ==>
          s.owed.None? && s.call.NoCall? && Ends(s.page, s.closings[0].event))
  }

  /** The ended turn's thread was reloaded, and no tool rows are held for it. */
  ghost predicate Reloaded(s: Sys) {
    s.closings != [] && s.closings[0].list.Some?
    && s.closings[0].event.threadId in s.page.messages && s.closings[0].event.threadId !in s.page.heldTools
  }

  /** A turn the backend started for the running call has its completion event owed or held. */
  ghost predicate Tracked(s: Sys) {
    match s.call
    case NoCall => true
    case Waiting(_, _, started) =>
      started.Some? ==> s.owed == started || (s.owed.None? && HeldTurnEnds(s.page, started.value))
    case Reloading(_, r, started) =>
      (s.owed.Some? ==> s.owed == Some(r))
      && (started.Some? ==> started == Some(r) && (s.owed == started || (s.owed.None? && HeldTurnEnds(s.page, r))))
  }

  /** Whatever keeps the page busy is still running: a call, a reload, or the backend's turn. */
  ghost predicate Outstanding(s: Sys) {
    s.page.busy ==> !s.call.NoCall? || s.closings != [] || (s.owed.Some? && IsStreamed(s.page, s.owed.value))
  }

  ghost predicate DistinctRows(p: Page) {
    forall t :: t in p.messages ==> Distinct(Ids(p.messages[t]))
  }

  ghost predicate TurnInv(s: Sys) {
    Flags(s.page)
    && (s.page.setup <==> !s.call.NoCall?)
    && Closes(s) && Tracked(s) && Outstanding(s)
    && DistinctRows(s.page)
  }

  // ---- frames -----------------------------------------------------------------------------------

  predicate SameTurn(p: Page, q: Page) {
    p.busy == q.busy && p.setup == q.setup && p.streamingMessage == q.streamingMessage
    && p.streamingThread == q.streamingThread && p.heldTurns == q.heldTurns
  }

  lemma AppendTextKeepsIds(messages: map<ThreadId, seq<Row>>, thread: ThreadId, id: MessageId, delta: string)
    ensures SameIds(messages, AppendText(messages, thread, id, delta))
  {
    var row := Find(messages, thread, id);
    if row.Some? {
      PutRowKeepsIds(messages, thread, row.value.(content := row.value.content + delta));
    }
  }

  lemma TokenKeeps(p: Page, id: MessageId, delta: string, reasoning: string)
    ensures SameTurn(p, OnToken(p, id, delta, reasoning))
    ensures SameIds(p.messages, OnToken(p, id, delta, reasoning).messages)
    ensures OnToken(p, id, delta, reasoning).heldTools == p.heldTools
    ensures !Streams(p, id) ==> OnToken(p, id, delta, reasoning).messages == p.messages
  {
    if Streams(p, id) {
      AppendTextKeepsIds(p.messages, p.streamingThread.value, id, delta);
    }
  }

  lemma ClearTextKeepsIds(messages: map<ThreadId, seq<Row>>, t: ThreadId, id: MessageId)
    ensures SameIds(messages, ClearText(messages, t, id))
  {
    var row := Find(messages, t, id);
    if row.Some? {
      PutRowKeepsIds(messages, t, row.value.(content := ""));
    }
  }

  lemma CountTokensKeepsIds(messages: map<ThreadId, seq<Row>>, e: CompleteEvent)
    ensures SameIds(messages, CountTokens(messages, e))
  {
    var row := Find(messages, e.threadId, e.messageId);
    if row.Some? {
      PutRowKeepsIds(messages, e.threadId,
                     row.value.(promptTokens := e.promptTokens, completionTokens := e.completionTokens));
    }
  }

  lemma FinishRowKeepsIds(messages: map<ThreadId, seq<Row>>, t: ThreadId, id: MessageId, finish: Finish)
    ensures SameIds(messages, FinishRow(messages, t, id, finish))
  {
    var row := Find(messages, t, id);
    if row.Some? {
      PutRowKeepsIds(messages, t, row.value.(finishReason := Some(finish)));
    }
  }

  lemma RetryKeeps(p: Page, id: MessageId)
    ensures SameTurn(p, OnRetry(p, id))
    ensures SameIds(p.messages, OnRetry(p, id).messages)
    ensures OnRetry(p, id).heldTools == p.heldTools
    ensures !Streams(p, id) ==> OnRetry(p, id).messages == p.messages
  {
    if Streams(p, id) {
      ClearTextKeepsIds(p.messages, p.streamingThread.value, id);
    }
  }

  lemma CompleteKeeps(p: Page, e: CompleteEvent)
    ensures SameTurn(p, OnComplete(p, e))
    ensures SameIds(p.messages, OnComplete(p, e).messages)
    ensures OnComplete(p, e).heldTools == p.heldTools
    ensures p.streamingMessage != Some(e.messageId) ==> OnComplete(p, e).messages == p.messages
  {
    CountTokensKeepsIds(p.messages, e);
    if p.streamingMessage == Some(e.messageId) {
      assert SameTurn(p, OnComplete(p, e)) && OnComplete(p, e).heldTools == p.heldTools;
    } else {
      assert SameTurn(p, OnComplete(p, e)) && OnComplete(p, e).heldTools == p.heldTools;
    }
  }

  lemma ErrorKeeps(p: Page, e: ErrorEvent)
    ensures SameTurn(p, OnError(p, e))
    ensures SameIds(p.messages, OnError(p, e).messages)
    ensures OnError(p, e).heldTools == p.heldTools
    ensures p.streamingMessage != Some(e.messageId) ==> OnError(p, e).messages == p.messages
  {
    FinishRowKeepsIds(p.messages, e.threadId, e.messageId, Error);
    if p.streamingMessage == Some(e.messageId) {
      assert SameTurn(p, OnError(p, e)) && OnError(p, e).heldTools == p.heldTools;
    } else {
      assert SameTurn(p, OnError(p, e)) && OnError(p, e).heldTools == p.heldTools;
    }
  }

  lemma BeginCloseKeeps(p: Page, e: TurnEvent)
    ensures SameTurn(p, BeginClose(p, e))
    ensures SameIds(p.messages, BeginClose(p, e).messages)
    ensures BeginClose(p, e).heldTools == p.heldTools
  {
    if e.assistantId.Some? {
      FinishRowKeepsIds(p.messages, e.threadId, e.assistantId.value, e.finish);
    }
  }

  lemma SameIdsKeepsDistinct(p: Page, q: Page)
    requires SameIds(p.messages, q.messages) && DistinctRows(p)
    ensures DistinctRows(q)
  {
  }

  lemma AddRowsKeepsDistinct(p: Page, t: ThreadId, events: seq<ToolEvent>)
    requires DistinctRows(p)
    ensures DistinctRows(p.(messages := AddRows(p.messages, t, events)))
  {
    AddToolsKeepsDistinct(GetOr(p.messages, t, []), events);
    AddRowsAt(p.messages, t, events);
  }

  lemma RestoreToolsKeeps(p: Page, t: ThreadId)
    ensures SameTurn(p, RestoreTools(p, t))
    ensures DistinctRows(p) ==> DistinctRows(RestoreTools(p, t))
    ensures RestoreTools(p, t).heldTools == p.heldTools - {t}
    ensures forall u :: u != t ==> (u in RestoreTools(p, t).messages <==> u in p.messages)
    ensures forall u :: u != t && u in p.messages ==> RestoreTools(p, t).messages[u] == p.messages[u]
    ensures t in p.messages ==> t in RestoreTools(p, t).messages
    ensures GetOr(RestoreTools(p, t).messages, t, []) == AddTools(GetOr(p.messages, t, []), GetOr(p.heldTools, t, []))
  {
    AddRowsAt(p.messages, t, GetOr(p.heldTools, t, []));
    if DistinctRows(p) {
      AddRowsKeepsDistinct(p, t, GetOr(p.heldTools, t, []));
      assert RestoreTools(p, t).messages == p.(messages := AddRows(p.messages, t, GetOr(p.heldTools, t, []))).messages;
    }
  }

  lemma RestoreStreamKeeps(p: Page, id: MessageId)
    ensures SameTurn(p, RestoreStream(p, id))
    ensures SameIds(p.messages, RestoreStream(p, id).messages)
    ensures RestoreStream(p, id).heldTools == p.heldTools
  {
    var held := HeldFor(p, id);
    var taken := p.(heldStream := p.heldStream - {id},
                    buffer := if held.retryReset then "" else p.buffer,
                    reasoning := if held.retryReset then p.reasoning[id := ""] else p.reasoning);
    RestoreTextKeeps(taken, id, held);
    RestoreOutcomeKeeps(RestoreText(taken, id, held), held);
  }

  lemma RestoreTextKeeps(p: Page, id: MessageId, held: Held)
    ensures SameTurn(p, RestoreText(p, id, held))
    ensures SameIds(p.messages, RestoreText(p, id, held).messages)
    ensures RestoreText(p, id, held).heldTools == p.heldTools
  {
    TokenKeeps(p, id, held.tokens, held.reasoning);
  }

  lemma RestoreOutcomeKeeps(p: Page, held: Held)
    ensures SameTurn(p, RestoreOutcome(p, held))
    ensures SameIds(p.messages, RestoreOutcome(p, held).messages)
    ensures RestoreOutcome(p, held).heldTools == p.heldTools
  {
    if held.error.Some? {
      ErrorKeeps(p, held.error.value);
    } else if held.complete.Some? {
      CompleteKeeps(p, held.complete.value);
    }
  }

  lemma SeedRowsKeepsDistinct(list: seq<Row>, r: Accepted, content: string, modelId: Option<string>, mode: Option<Mode>)
    requires Distinct(Ids(list))
    ensures Distinct(Ids(SeedRows(list, r, content, modelId, mode)))
  {
    var withUser := if Has(list, r.userId) then list else list + [UserRow(r, content)];
    HasIsMembership(list, r.userId);
    assert Distinct(Ids(withUser)) by {
      assert withUser != list ==> Ids(withUser) == Ids(list) + [r.userId];
    }
    HasIsMembership(withUser, r.assistantId);
    var all := SeedRows(list, r, content, modelId, mode);
    assert all != withUser ==> Ids(all) == Ids(withUser) + [r.assistantId];
  }

  lemma SeedStreamKeeps(p: Page, r: Accepted, content: string, modelId: Option<string>, mode: Option<Mode>)
    requires DistinctRows(p)
    ensures var q := SeedStream(p, r, content, modelId, mode);
            q.busy == p.busy && !q.setup && IsStreamed(q, r) && q.heldTurns == p.heldTurns
            && DistinctRows(q) && r.threadId in q.messages
  {
    SeedRowsKeepsDistinct(GetOr(p.messages, r.threadId, []), r, content, modelId, mode);
  }

  lemma RestoreTurnKeeps(p: Page, t: ThreadId)
    requires !p.setup
    ensures var q := RestoreTurn(p, t);
            q.busy == p.busy && !q.setup && q.streamingMessage == p.streamingMessage
            && q.streamingThread == p.streamingThread && q.heldTools == p.heldTools
            && SameIds(p.messages, q.messages)
  {
    if t in p.heldTurns {
      BeginCloseKeeps(p.(heldTurns := p.heldTurns - {t}), p.heldTurns[t]);
    }
  }

  /** What setting up a turn leaves: its ids streamed, and none of its tool events held any more. */
  lemma SeedKeeps(p: Page, r: Accepted, request: Request, modelId: Option<string>)
    requires DistinctRows(p)
    ensures var q := Seed(p, r, request, modelId);
            q.busy == p.busy && !q.setup && IsStreamed(q, r)
            && DistinctRows(q) && r.threadId !in q.heldTools && r.threadId in q.messages
  {
    var seeded := SeedStream(p, r, request.content, modelId, request.autonomyMode);
    SeedStreamKeeps(p, r, request.content, modelId, request.autonomyMode);
    SeedTailKeeps(seeded, r);
  }

  lemma SeedTailKeeps(seeded: Page, r: Accepted)
    requires DistinctRows(seeded) && !seeded.setup && IsStreamed(seeded, r) && r.threadId in seeded.messages
    ensures var q := RestoreTurn(RestoreStream(RestoreTools(seeded, r.threadId), r.assistantId), r.threadId);
            q.busy == seeded.busy && !q.setup && IsStreamed(q, r)
            && DistinctRows(q) && r.threadId !in q.heldTools && r.threadId in q.messages
  {
    var tooled := RestoreTools(seeded, r.threadId);
    RestoreToolsKeeps(seeded, r.threadId);
    StreamTailKeeps(tooled, r);
  }

  lemma StreamTailKeeps(tooled: Page, r: Accepted)
    requires DistinctRows(tooled) && !tooled.setup && IsStreamed(tooled, r)
    requires r.threadId in tooled.messages && r.threadId !in tooled.heldTools
    ensures var q := RestoreTurn(RestoreStream(tooled, r.assistantId), r.threadId);
            q.busy == tooled.busy && !q.setup && IsStreamed(q, r)
            && DistinctRows(q) && r.threadId !in q.heldTools && r.threadId in q.messages
  {
    RestoreStreamKeeps(tooled, r.assistantId);
    var streamed := RestoreStream(tooled, r.assistantId);
    RestoreTurnKeeps(streamed, r.threadId);
  }

  /** Steps of the reload that follows the end of a turn. */
  predicate ClosingStep(step: Step) {
    step.ClosingLoaded? || step.ClosingFailed? || step.ClosingSettled?
  }

  // ---- preservation -----------------------------------------------------------------------------

  lemma InitialIsSound()
    ensures TurnInv(INITIAL)
  {
  }

  /** A reloaded thread shows in `t` what it shows in `s`. */
  ghost predicate KeepsReload(s: Sys, t: Sys) {
    Reloaded(s) ==>
      var thread := s.closings[0].event.threadId;
      thread in t.page.messages && t.page.messages[thread] == s.page.messages[thread] && thread !in t.page.heldTools
  }

  /** A step that leaves the turn, its lists' ids and what a reload installed alone keeps everything. */
  lemma QuietPagePreserves(s: Sys, q: Page)
    requires TurnInv(s)
    requires SameTurn(s.page, q) && SameIds(s.page.messages, q.messages)
    requires forall t :: t in q.heldTools ==> t in s.page.heldTools
    requires s.closings != [] ==> q.messages == s.page.messages
    ensures TurnInv(s.(page := q)) && KeepsReload(s, s.(page := q))
  {
    SameIdsKeepsDistinct(s.page, q);
  }

  lemma EventPreserves(s: Sys, step: Step)
    requires TurnInv(s) && Possible(s, step) && Promised(s, step)
    requires step.Token? || step.Retry? || step.Completed? || step.Errored?
    ensures TurnInv(Apply(s, step)) && KeepsReload(s, Apply(s, step))
  {
    match step
    case Token(id, delta, reasoning) =>
      TokenKeeps(s.page, id, delta, reasoning);
      QuietPagePreserves(s, OnToken(s.page, id, delta, reasoning));
    case Retry(id) =>
      RetryKeeps(s.page, id);
      QuietPagePreserves(s, OnRetry(s.page, id));
    case Completed(e) =>
      CompleteKeeps(s.page, e);
      QuietPagePreserves(s, OnComplete(s.page, e));
    case Errored(e) =>
      ErrorKeeps(s.page, e);
      QuietPagePreserves(s, OnError(s.page, e));
  }

  lemma ToolPreserves(s: Sys, e: ToolEvent)
    requires TurnInv(s) && Promised(s, Tool(e))
    ensures TurnInv(s.(page := OnTool(s.page, e))) && KeepsReload(s, s.(page := OnTool(s.page, e)))
  {
    var q := OnTool(s.page, e);
    AddRowsKeepsDistinct(s.page, e.threadId, [e]);
    AddRowsAt(s.page.messages, e.threadId, [e]);
    assert SameTurn(s.page, q) && DistinctRows(q);
    assert forall t :: t != e.threadId ==> (t in q.heldTools <==> t in s.page.heldTools);
    assert forall t :: t != e.threadId && t in s.page.messages ==> t in q.messages && q.messages[t] == s.page.messages[t];
  }

  lemma TurnPreserves(s: Sys, e: TurnEvent)
    requires TurnInv(s) && Possible(s, Turn(e))
    ensures TurnInv(Apply(s, Turn(e))) && KeepsReload(s, Apply(s, Turn(e)))
  {
    BeginCloseKeeps(s.page, e);
  }

  /** Whatever page an accepted first send sets up, only an older end held for its thread is in the way. */
  lemma HeldEndDecides(s: Sys, q: Page, r: Accepted)
    requires TurnInv(s) && s.call.Waiting? && RespondPromised(s, r) && !s.call.retry
    requires q.busy && !q.setup && IsStreamed(q, r) && DistinctRows(q)
    ensures TurnInv(s.(page := q, call := NoCall, closings := s.closings + HeldClosing(s.page, r)))
            <==> !(s.owed.Some? && HeldTurnEnds(s.page, r))
  {
    assert s.closings == [];
  }

  lemma RetryAdopts(s: Sys, q: Page, r: Accepted)
    requires TurnInv(s) && s.call.Waiting? && RespondPromised(s, r) && s.call.retry
    requires SameTurn(s.page, q) && q.messages == s.page.messages
    ensures TurnInv(s.(page := q, call := Reloading(s.call.request, r, s.call.started)))
  {
  }

  /**
   * The answer to a first send keeps the page sound exactly when no older completion event of the
   * thread passes for the accepted turn's, whose own is still owed.
   */
  lemma RespondSoundIff(s: Sys, r: Accepted, modelId: Option<string>)
    requires TurnInv(s) && s.call.Waiting? && RespondPromised(s, r)
    ensures TurnInv(Apply(s, Respond(r, modelId)))
            <==> s.call.retry || !(s.owed.Some? && HeldTurnEnds(s.page, r))
  {
    var adopted := Adopt(s.page, r);
    if s.call.retry {
      RetryAdopts(s, adopted, r);
    } else {
      SeedKeeps(adopted, r, s.call.request, modelId);
      HeldEndDecides(s, Seed(adopted, r, s.call.request, modelId), r);
    }
  }

  /** The list of a retry arrives: all but the end of its turn is sound whatever the list is. */
  lemma RetryReloadedKeeps(p: Page, r: Accepted, request: Request, modelId: Option<string>, list: seq<Row>)
    requires DistinctRows(p) && Distinct(Ids(list))
    ensures var q := RetryReloaded(p, r, request, modelId, list);
            q.busy == p.busy && !q.setup && IsStreamed(q, r) && DistinctRows(q)
  {
    var loaded := p.(messages := p.messages[r.threadId := list]);
    if Finished(list, r.assistantId) {
      var taken := loaded.(streamingMessage := Some(r.assistantId), streamingThread := Some(r.threadId), setup := false,
                           heldStream := loaded.heldStream - {r.assistantId}, heldTurns := loaded.heldTurns - {r.threadId});
      BeginCloseKeeps(taken, TurnEvent(r.threadId, Some(r.assistantId), list[IndexOf(list, r.assistantId)].finishReason.value));
    } else {
      SeedKeeps(loaded, r, request, modelId);
    }
  }

  /** The list of a retry begins one ending of its turn, or none. */
  lemma ReloadBegins(s: Sys, list: seq<Row>, modelId: Option<string>)
    requires TurnInv(s) && s.call.Reloading?
    ensures var r, s' := s.call.result, Apply(s, Reload(list, modelId));
            |s'.closings| <= 1
            && (s'.closings != [] ==> Names(s'.closings[0].event, r))
            && (s'.closings != [] <==> Finished(list, r.assistantId) || HeldTurnEnds(s.page, r))
  {
    assert s.closings == [];
  }

  /** Whatever page and endings a reload leaves, only the number of ends decides. */
  lemma OneEndDecides(s: Sys, q: Page, closings: seq<Closing>, list: seq<Row>)
    requires TurnInv(s) && s.call.Reloading? && ReloadPromised(s, list)
    requires q.busy && !q.setup && IsStreamed(q, s.call.result) && DistinctRows(q)
    requires |closings| <= 1 && (closings != [] ==> Names(closings[0].event, s.call.result))
    requires closings != [] <==> Finished(list, s.call.result.assistantId) || HeldTurnEnds(s.page, s.call.result)
    ensures TurnInv(s.(page := q, call := NoCall, closings := closings)) <==> OneEnd(s, s.call.result, list)
  {
  }

  /**
   * A retry's reload keeps the page sound exactly when the retried turn has one end. The code checks
   * none of this: without an end the page stays busy, with two the second ends a later turn.
   */
  lemma ReloadSoundIff(s: Sys, list: seq<Row>, modelId: Option<string>)
    requires TurnInv(s) && s.call.Reloading? && ReloadPromised(s, list)
    ensures TurnInv(Apply(s, Reload(list, modelId))) <==> OneEnd(s, s.call.result, list)
  {
    var q := RetryReloaded(s.page, s.call.result, s.call.request, modelId, list);
    RetryReloadedKeeps(s.page, s.call.result, s.call.request, modelId, list);
    ReloadBegins(s, list, modelId);
    OneEndDecides(s, q, Apply(s, Reload(list, modelId)).closings, list);
  }

  lemma ClosingPreserves(s: Sys, step: Step)
    requires TurnInv(s) && Possible(s, step) && Promised(s, step)
    requires step.ClosingLoaded? || step.ClosingFailed? || step.ClosingSettled?
    ensures TurnInv(Apply(s, step))
  {
  }

  lemma UnparkKeeps(p: Page, t: ThreadId)
    ensures SameTurn(p, UnparkPrompts(p, t)) && UnparkPrompts(p, t).messages == p.messages
    ensures UnparkPrompts(p, t).heldTools == p.heldTools && UnparkPrompts(p, t).active == p.active
  {
  }

  lemma OpenPreserves(s: Sys, t: ThreadId)
    requires TurnInv(s)
    ensures TurnInv(s.(page := Select(s.page, t))) && KeepsReload(s, s.(page := Select(s.page, t)))
  {
    var moved := MoveTo(s.page, t);
    MovedKeeps(s.page, t);
    UnparkKeeps(moved, t);
    ToolsPreserve(s, UnparkPrompts(moved, t), t);
    ToolsPreserve(s, moved, t);
  }

  lemma MovedKeeps(p: Page, t: ThreadId)
    ensures var moved := MoveTo(p, t);
            SameTurn(p, moved) && moved.messages == p.messages && moved.heldTools == p.heldTools
            && moved.streamingThread == p.streamingThread && moved.active == Some(t)
  {
  }

  /** Restoring held tool events keeps everything; an ended, reloaded turn has none left. */
  lemma ToolsPreserve(s: Sys, q: Page, t: ThreadId)
    requires TurnInv(s) && SameTurn(s.page, q) && q.messages == s.page.messages && q.heldTools == s.page.heldTools
    ensures TurnInv(s.(page := RestoreTools(q, t))) && TurnInv(s.(page := q))
    ensures KeepsReload(s, s.(page := RestoreTools(q, t))) && KeepsReload(s, s.(page := q))
  {
    assert DistinctRows(q);
    RestoreToolsKeeps(q, t);
  }

  lemma OpenedPreserves(s: Sys, t: ThreadId, list: seq<Row>, latest: bool)
    requires TurnInv(s) && Promised(s, Opened(t, list, latest))
    ensures TurnInv(s.(page := SelectLoaded(s.page, t, list, latest)))
    ensures s.closings != [] && s.closings[0].event.threadId != t ==>
              KeepsReload(s, s.(page := SelectLoaded(s.page, t, list, latest)))
  {
    var loaded := s.page.(messages := s.page.messages[t := list]);
    var s1 := s.(page := loaded);
    assert TurnInv(s1);
    UnparkKeeps(loaded, t);
    ToolsPreserve(s1, UnparkPrompts(loaded, t), t);
  }

  /** What `selectThread` leaves in a thread once the awaited list came: the list, and held tool rows if shown. */
  function Arrived(p: Page, t: ThreadId, list: seq<Row>, latest: bool): seq<Row> {
    if latest && p.active == Some(t) then AddTools(list, GetOr(p.heldTools, t, [])) else list
  }

  lemma OpenedInstalls(p: Page, t: ThreadId, list: seq<Row>, latest: bool)
    ensures var q := SelectLoaded(p, t, list, latest);
            t in q.messages && q.messages[t] == Arrived(p, t, list, latest) && SameTurn(p, q)
            && (t in q.heldTools ==> t in p.heldTools)
  {
    var loaded := p.(messages := p.messages[t := list]);
    UnparkKeeps(loaded, t);
    RestoreToolsKeeps(UnparkPrompts(loaded, t), t);
  }

  lemma NewPreserves(s: Sys, modelLoading: bool)
    requires TurnInv(s)
    ensures TurnInv(s.(page := NewChat(s.page, modelLoading)))
    ensures KeepsReload(s, s.(page := NewChat(s.page, modelLoading)))
  {
  }

  lemma RefreshedPreserves(s: Sys, t: ThreadId, list: seq<Row>)
    requires TurnInv(s) && Promised(s, Refreshed(t, list))
    ensures TurnInv(s.(page := ListRefreshed(s.page, t, list)))
    ensures KeepsReload(s, s.(page := ListRefreshed(s.page, t, list)))
  {
  }

  lemma SendPreserves(s: Sys, step: Step)
    requires TurnInv(s) && Possible(s, step) && (step.Send? || step.Start? || step.Fail?)
    ensures TurnInv(Apply(s, step)) && KeepsReload(s, Apply(s, step))
  {
  }

  lemma AskPreserves(s: Sys, t: ThreadId, prompt: Prompt)
    requires TurnInv(s)
    ensures TurnInv(s.(page := OnPrompt(s.page, t, prompt))) && KeepsReload(s, s.(page := OnPrompt(s.page, t, prompt)))
  {
    QuietPagePreserves(s, OnPrompt(s.page, t, prompt));
  }

  lemma AnswerPreserves(s: Sys, requestId: string)
    requires TurnInv(s)
    ensures TurnInv(s.(page := OnAnswered(s.page, requestId)))
    ensures KeepsReload(s, s.(page := OnAnswered(s.page, requestId)))
  {
    QuietPagePreserves(s, OnAnswered(s.page, requestId));
  }

  lemma ReportPreserves(s: Sys, fault: Fault)
    requires TurnInv(s)
    ensures TurnInv(s.(page := Reported(s.page, fault))) && KeepsReload(s, s.(page := Reported(s.page, fault)))
  {
    QuietPagePreserves(s, Reported(s.page, fault));
  }

  predicate LeavesReload(s: Sys, step: Step) {
    s.closings != [] && !ClosingStep(step) && !(step.Opened? && step.thread == s.closings[0].event.threadId)
  }

  predicate MovesPage(step: Step) {
    step.New? || step.Open? || step.Opened? || step.Refreshed? || step.Answer? || step.Report? || step.Compose?
  }

  lemma MovePreserves(s: Sys, step: Step)
    requires TurnInv(s) && Possible(s, step) && Promised(s, step) && MovesPage(step)
    ensures TurnInv(Apply(s, step))
    ensures LeavesReload(s, step) ==> KeepsReload(s, Apply(s, step))
  {
    match step
    case New(modelLoading) => NewPreserves(s, modelLoading);
    case Open(t) => OpenPreserves(s, t);
    case Opened(t, list, latest) => OpenedPreserves(s, t, list, latest);
    case Refreshed(t, list) => RefreshedPreserves(s, t, list);
    case Answer(requestId) => AnswerPreserves(s, requestId);
    case Report(fault) => ReportPreserves(s, fault);
    case Compose(_, _) => QuietPagePreserves(s, Apply(s, step).page);
  }

  /** Every allowed step keeps the turn invariants, and a reload unless it is an ending or brings another list. */
  lemma StepPreserves(s: Sys, step: Step)
    requires TurnInv(s) && Possible(s, step) && Promised(s, step)
    ensures TurnInv(Apply(s, step))
    ensures LeavesReload(s, step) ==> KeepsReload(s, Apply(s, step))
  {
    if MovesPage(step) {
      MovePreserves(s, step);
    } else {
      match step
      case Tool(e) => ToolPreserves(s, e);
      case Ask(t, prompt) => AskPreserves(s, t, prompt);
      case Turn(e) => TurnPreserves(s, e);
      case Respond(r, modelId) => RespondSoundIff(s, r, modelId);
      case Reload(list, modelId) => ReloadSoundIff(s, list, modelId);
      case ClosingLoaded(_) => ClosingPreserves(s, step);
      case ClosingFailed(_) => ClosingPreserves(s, step);
      case ClosingSettled(_) => ClosingPreserves(s, step);
      case Send(_, _, _, _, _) => SendPreserves(s, step);
      case Start(_) => SendPreserves(s, step);
      case Fail(_) => SendPreserves(s, step);
      case _ => EventPreserves(s, step);
    }
  }

  lemma {:induction false} RunPreserves(s: Sys, steps: seq<Step>)
    requires TurnInv(s) && Allowed(s, steps)
    ensures TurnInv(Exec(s, steps))
    decreases |steps|
  {
    if steps != [] {
      StepPreserves(s, steps[0]);
      RunPreserves(Apply(s, steps[0]), steps[1..]);
    }
  }

  // ---- every turn ends --------------------------------------------------------------------------

  /** Steps that bring something outstanding nearer its end. */
  predicate Delivers(step: Step) {
    step.Start? || step.Respond? || step.Reload? || step.Fail? || step.Turn?
    || step.ClosingLoaded? || step.ClosingFailed? || step.ClosingSettled?
  }

  function CallLeft(c: Call): nat {
    match c
    case NoCall => 0
    case Waiting(_, retry, started) => (if started.None? then 4 else 0) + (if retry then 4 else 3)
    case Reloading(_, _, _) => 3
  }

  function ClosingsLeft(closings: seq<Closing>): nat {
    if closings == [] then 0
    else (if closings[0].list.None? then 2 else 1) + ClosingsLeft(closings[1..])
  }

  /** A bound on the deliveries still to come. */
  function Left(s: Sys): nat {
    CallLeft(s.call) + (if s.owed.Some? then 3 else 0) + ClosingsLeft(s.closings)
  }

  lemma FewClosingsLeft(closings: seq<Closing>)
    requires |closings| <= 1
    ensures ClosingsLeft(closings) == if closings == [] then 0 else if closings[0].list.None? then 2 else 1
  {
    if closings != [] {
      assert closings[1..] == [];
    }
  }

  /** Every delivery lowers the bound. */
  lemma DeliveryLowersLeft(s: Sys, step: Step)
    requires TurnInv(s) && Possible(s, step) && Promised(s, step) && Delivers(step)
    ensures Left(Apply(s, step)) < Left(s)
  {
    StepPreserves(s, step);
    FewClosingsLeft(s.closings);
    FewClosingsLeft(Apply(s, step).closings);
  }

  /** Nothing but a delivery or a send that starts touches what is outstanding. */
  lemma OthersKeepLeft(s: Sys, step: Step)
    requires Possible(s, step) && !Delivers(step) && (step.Send? ==> s.page.busy)
    ensures Left(Apply(s, step)) == Left(s)
  {
    var s' := Apply(s, step);
    assert s'.call == s.call && s'.owed == s.owed && s'.closings == s.closings;
  }

  function Deliveries(steps: seq<Step>): nat {
    if steps == [] then 0 else (if Delivers(steps[0]) then 1 else 0) + Deliveries(steps[1..])
  }

  predicate NoSend(steps: seq<Step>) {
    forall i :: 0 <= i < |steps| ==> !steps[i].Send?
  }

  /**
   * A turn ends. However its events, its response and the user's actions fall: without a further
   * send at most `Left` deliveries happen; as long as the page is busy one more is possible; and
   * once none is outstanding the page is idle.
   */
  lemma {:induction false} TurnEndsIdle(s: Sys, steps: seq<Step>)
    requires TurnInv(s) && Allowed(s, steps) && NoSend(steps)
    ensures Deliveries(steps) + Left(Exec(s, steps)) <= Left(s)
    ensures Left(Exec(s, steps)) == 0 ==> Idle(Exec(s, steps).page)
    ensures Left(Exec(s, steps)) > 0 ==>
              exists step :: Delivers(step) && Possible(Exec(s, steps), step) && Promised(Exec(s, steps), step)
    decreases |steps|
  {
    if steps == [] {
      SomethingCanCome(s);
    } else {
      StepPreserves(s, steps[0]);
      if Delivers(steps[0]) {
        DeliveryLowersLeft(s, steps[0]);
      } else {
        OthersKeepLeft(s, steps[0]);
      }
      TurnEndsIdle(Apply(s, steps[0]), steps[1..]);
    }
  }

  lemma SomethingCanCome(s: Sys)
    requires TurnInv(s)
    ensures Left(s) == 0 ==> Idle(s.page)
    ensures Left(s) > 0 ==> exists step :: Delivers(step) && Possible(s, step) && Promised(s, step)
  {
    if Left(s) > 0 {
      var fault := Thrown("");
      var step :=
        if !s.call.NoCall? then Fail(fault)
        else if s.closings != [] then (if s.closings[0].list.None? then ClosingFailed(fault) else ClosingSettled(None))
        else Turn(TurnEvent(s.owed.value.threadId, None, Error));
      assert Delivers(step) && Possible(s, step) && Promised(s, step);
    }
  }

  /** Nothing but its own stretches touches an ending. */
  lemma EndingWaits(s: Sys, step: Step)
    requires TurnInv(s) && Possible(s, step) && Promised(s, step) && s.closings != [] && !ClosingStep(step)
    ensures Apply(s, step).closings == s.closings
  {
  }

  /** The last list that arrives for `t`, or `list`. */
  function LastList(steps: seq<Step>, t: ThreadId, list: seq<Row>): seq<Row>
    decreases |steps|
  {
    if steps == [] then list
    else LastList(steps[1..], t, if steps[0].Opened? && steps[0].thread == t then steps[0].list else list)
  }

  /** Between the reload and the ending's last stretch the thread shows the reload, or a list that came later. */
  lemma ReloadedStep(s: Sys, step: Step)
    requires TurnInv(s) && Reloaded(s) && Possible(s, step) && Promised(s, step) && !ClosingStep(step)
    ensures var t, next := s.closings[0].event.threadId, Apply(s, step);
            Reloaded(next) && next.closings == s.closings
            && next.page.messages[t] == LastList([step], t, s.page.messages[t])
  {
    EndingWaits(s, step);
    StepPreserves(s, step);
    assert [step][1..] == [];
    if step.Opened? {
      OpenedInstalls(s.page, step.thread, step.list, step.latest);
    }
  }

  /**
   * A turn whose reload succeeded ends idle, its thread showing exactly the persisted list, or the last list
   * that `selectThread` had awaited and that arrived after the reload: the code installs it without a look.
   */
  lemma {:induction false} TurnEndsPersisted(s: Sys, between: seq<Step>, late: Option<Fault>)
    requires TurnInv(s) && Reloaded(s)
    requires Allowed(s, between + [ClosingSettled(late)])
    requires forall i :: 0 <= i < |between| ==> !between[i].ClosingSettled?
    ensures var end, t := Exec(s, between + [ClosingSettled(late)]).page, s.closings[0].event.threadId;
            Idle(end) && t in end.messages && end.messages[t] == LastList(between, t, s.page.messages[t])
    decreases |between|
  {
    var steps := between + [ClosingSettled(late)];
    if between == [] {
      assert steps[1..] == [];
      assert Exec(s, steps) == Apply(s, ClosingSettled(late));
    } else {
      assert steps[1..] == between[1..] + [ClosingSettled(late)];
      assert [steps[0]][1..] == [];
      StepPreserves(s, steps[0]);
      ReloadedStep(s, steps[0]);
      TurnEndsPersisted(Apply(s, steps[0]), between[1..], late);
    }
  }

  lemma {:induction false} RunKeepsEnding(s: Sys, steps: seq<Step>)
    requires TurnInv(s) && Allowed(s, steps) && s.closings != []
    requires forall i :: 0 <= i < |steps| ==> !ClosingStep(steps[i])
    ensures Exec(s, steps).closings == s.closings
    decreases |steps|
  {
    if steps != [] {
      EndingWaits(s, steps[0]);
      StepPreserves(s, steps[0]);
      RunKeepsEnding(Apply(s, steps[0]), steps[1..]);
    }
  }

  /**
   * A retry that finds its turn finished: whatever happens between its reload, the reload of the ending
   * and the ending's last stretch, it ends idle, its thread showing the persisted list, or a list that
   * arrived later, without duplicates.
   */
  lemma RetryOfFinishedTurnEnds(
    s: Sys, list: seq<Row>, modelId: Option<string>, first: seq<Step>, persisted: seq<Row>, second: seq<Step>,
    late: Option<Fault>)
    requires TurnInv(s) && Possible(s, Reload(list, modelId)) && Promised(s, Reload(list, modelId))
    requires Finished(list, s.call.result.assistantId)
    requires Allowed(Apply(s, Reload(list, modelId)), first)
    requires forall i :: 0 <= i < |first| ==> !ClosingStep(first[i])
    requires Possible(Exec(Apply(s, Reload(list, modelId)), first), ClosingLoaded(persisted))
    requires Promised(Exec(Apply(s, Reload(list, modelId)), first), ClosingLoaded(persisted))
    requires Allowed(Apply(Exec(Apply(s, Reload(list, modelId)), first), ClosingLoaded(persisted)),
                     second + [ClosingSettled(late)])
    requires forall i :: 0 <= i < |second| ==> !second[i].ClosingSettled?
    ensures var end := Exec(Apply(Exec(Apply(s, Reload(list, modelId)), first), ClosingLoaded(persisted)),
                            second + [ClosingSettled(late)]).page;
            Idle(end) && s.call.result.threadId in end.messages
            && end.messages[s.call.result.threadId] == LastList(second, s.call.result.threadId, persisted)
            && DistinctRows(end)
  {
    var reloaded := Apply(s, Reload(list, modelId));
    FinishedReloadCloses(s, list, modelId);
    StepPreserves(s, Reload(list, modelId));
    RunPreserves(reloaded, first);
    RunKeepsEnding(reloaded, first);
    EndingLoadedEnds(Exec(reloaded, first), persisted, second, late);
  }

  lemma FinishedReloadCloses(s: Sys, list: seq<Row>, modelId: Option<string>)
    requires TurnInv(s) && s.call.Reloading? && Finished(list, s.call.result.assistantId)
    ensures var closings := Apply(s, Reload(list, modelId)).closings;
            |closings| == 1 && closings[0].event.threadId == s.call.result.threadId
  {
  }

  lemma EndingLoadedEnds(s: Sys, persisted: seq<Row>, between: seq<Step>, late: Option<Fault>)
    requires TurnInv(s) && Possible(s, ClosingLoaded(persisted)) && Promised(s, ClosingLoaded(persisted))
    requires Allowed(Apply(s, ClosingLoaded(persisted)), between + [ClosingSettled(late)])
    requires forall i :: 0 <= i < |between| ==> !between[i].ClosingSettled?
    ensures var end := Exec(Apply(s, ClosingLoaded(persisted)), between + [ClosingSettled(late)]).page;
            Idle(end) && s.closings[0].event.threadId in end.messages
            && end.messages[s.closings[0].event.threadId] == LastList(between, s.closings[0].event.threadId, persisted)
            && DistinctRows(end)
  {
    var loaded := Apply(s, ClosingLoaded(persisted));
    StepPreserves(s, ClosingLoaded(persisted));
    RunPreserves(loaded, between + [ClosingSettled(late)]);
    assert loaded.closings[0] == s.closings[0].(list := Some(persisted));
    TurnEndsPersisted(loaded, between, late);
  }
}
