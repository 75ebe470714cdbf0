/**
 * Streamed text does not depend on when the response to `send` arrives: whatever is held and
 * replayed, a message shows what its own events say in order since its last retry.
 */
module Streaming {
  import opened Base
  import opened ChatTypes
  import opened Rows
  import opened PageSteps
  import opened ChatSystem
  import opened TurnProtocol

  datatype Text = Text(content: string, reasoning: string)
  const SILENT := Text("", "")

  // ---- the in-order reading of a message's events -----------------------------------------------

  datatype Said = Delta(delta: string, reasoning: string) | Again

  /** The part after the last retry. */
  function SinceRetry(said: seq<Said>): seq<Said> {
    if said == [] || said[|said| - 1].Again? then []
    else SinceRetry(said[..|said| - 1]) + [said[|said| - 1]]
  }

  /** It is the longest run of deltas at the end. */
  lemma {:induction false} SinceRetryMeaning(said: seq<Said>)
    ensures var r := SinceRetry(said);
            |r| <= |said|
            && (forall i :: |said| - |r| <= i < |said| ==> said[i].Delta? && r[i - (|said| - |r|)] == said[i])
            && (|r| < |said| ==> said[|said| - |r| - 1].Again?)
  {
    if said != [] && said[|said| - 1].Delta? {
      SinceRetryMeaning(said[..|said| - 1]);
    }
  }

  function Joined(said: seq<Said>): Text {
    if said == [] then SILENT
    else
      var rest := Joined(said[1..]);
      if said[0].Again? then rest
      else Text(said[0].delta + rest.content, said[0].reasoning + rest.reasoning)
  }

  /** Everything since the last retry, concatenated. */
  function InOrder(said: seq<Said>): Text {
    Joined(SinceRetry(said))
  }

  function Heard(h: Text, e: Said): Text {
    match e
    case Delta(delta, reasoning) => Text(h.content + delta, h.reasoning + reasoning)
    case Again => SILENT
  }

  lemma JoinedSnoc(said: seq<Said>, e: Said)
    requires e.Delta?
    ensures Joined(said + [e]) == Heard(Joined(said), e)
  {
    if said == [] {
      assert (said + [e])[1..] == [];
    } else {
      assert (said + [e])[1..] == said[1..] + [e];
      JoinedSnoc(said[1..], e);
    }
  }

  lemma InOrderSnoc(said: seq<Said>, e: Said)
    ensures InOrder(said + [e]) == Heard(InOrder(said), e)
  {
    assert (said + [e])[..|said|] == said;
    if e.Delta? {
      JoinedSnoc(SinceRetry(said), e);
    }
  }

  // ---- what the page shows or holds of a message ------------------------------------------------

  /** The content of the message's row in a thread. */
  function TextIn(messages: map<ThreadId, seq<Row>>, t: ThreadId, m: MessageId): Option<string> {
    var row := Find(messages, t, m);
    if row.None? then None else Some(row.value.content)
  }

  function RowText(p: Page, t: ThreadId, m: MessageId): Option<string> {
    TextIn(p.messages, t, m)
  }

  /** The page shows `h` for the message it streams; the row is replaced once the turn is reloaded. */
  predicate Shows(s: Sys, m: MessageId, h: Text)
    requires Streams(s.page, m)
  {
    s.page.buffer == h.content
    && GetOr(s.page.reasoning, m, "") == h.reasoning
    && m !in s.page.heldStream
    && (s.closings == [] || s.closings[0].list.None? ==>
          RowText(s.page, s.page.streamingThread.value, m) == Some(h.content))
  }

  predicate Holds(p: Page, m: MessageId, h: Text) {
    HeldFor(p, m).tokens == h.content && HeldFor(p, m).reasoning == h.reasoning
  }

  /** `None`: a retry took the finished answer from storage, so nothing more is streamed for it. */
  predicate StreamInv(s: Sys, m: MessageId, h: Option<Text>) {
    (if h.None? then Over(s, m) && m !in s.page.heldStream
     else if Streams(s.page, m) then Shows(s, m, h.value)
     else Holds(s.page, m, h.value))
    && (s.call.Reloading? ==> s.call.result.userId != s.call.result.assistantId)
  }

  /** What a step makes of the message's text: its own events, and the steps that drop it altogether. */
  function NextText(s: Sys, step: Step, m: MessageId, h: Option<Text>): Option<Text>
    requires Possible(s, step)
  {
    match step
    case Token(id, delta, reasoning) => if id == m && h.Some? then Some(Heard(h.value, Delta(delta, reasoning))) else h
    case Retry(id) => if id == m && h.Some? then Some(SILENT) else h
    case New(modelLoading) => if s.page.busy || modelLoading then h else Some(SILENT)
    case Reload(list, _) => if s.call.result.assistantId == m && Finished(list, m) then None else h
    case ClosingFailed(_) => if s.page.streamingMessage == Some(m) then Some(SILENT) else h
    case ClosingSettled(_) => if s.page.streamingMessage == Some(m) then Some(SILENT) else h
    case _ => h
  }

  // ---- rows keep their text ---------------------------------------------------------------------

  lemma PutRowText(messages: map<ThreadId, seq<Row>>, t: ThreadId, row: Row, u: ThreadId, m: MessageId)
    requires Find(messages, t, row.id).Some?
    ensures var after := Find(PutRow(messages, t, row), u, m);
            after == if t == u && row.id == m then Some(row) else Find(messages, u, m)
  {
    if t == u {
      PutReplaces(messages[t], row, m);
    }
  }

  lemma AppendTextText(messages: map<ThreadId, seq<Row>>, t: ThreadId, m: MessageId, delta: string)
    requires Find(messages, t, m).Some?
    ensures var after := Find(AppendText(messages, t, m, delta), t, m);
            after.Some? && after.value.content == Find(messages, t, m).value.content + delta
  {
    var row := Find(messages, t, m).value;
    PutRowText(messages, t, row.(content := row.content + delta), t, m);
  }

  /** Counting tokens and finishing a row change no text. */
  lemma CountTokensText(messages: map<ThreadId, seq<Row>>, e: CompleteEvent, u: ThreadId, m: MessageId)
    ensures TextIn(CountTokens(messages, e), u, m) == TextIn(messages, u, m)
  {
    var row := Find(messages, e.threadId, e.messageId);
    if row.Some? {
      PutRowText(messages, e.threadId,
                 row.value.(promptTokens := e.promptTokens, completionTokens := e.completionTokens), u, m);
    }
  }

  lemma FinishRowText(messages: map<ThreadId, seq<Row>>, t: ThreadId, id: MessageId, finish: Finish, u: ThreadId, m: MessageId)
    ensures TextIn(FinishRow(messages, t, id, finish), u, m) == TextIn(messages, u, m)
  {
    var row := Find(messages, t, id);
    if row.Some? {
      PutRowText(messages, t, row.value.(finishReason := Some(finish)), u, m);
    }
  }

  lemma CompleteKeepsText(p: Page, e: CompleteEvent, u: ThreadId, m: MessageId)
    ensures RowText(OnComplete(p, e), u, m) == RowText(p, u, m)
    ensures OnComplete(p, e).buffer == p.buffer && OnComplete(p, e).reasoning == p.reasoning
    ensures p.streamingMessage == Some(m) && m !in p.heldStream ==> m !in OnComplete(p, e).heldStream
    ensures HeldFor(OnComplete(p, e), m).tokens == HeldFor(p, m).tokens
    ensures HeldFor(OnComplete(p, e), m).reasoning == HeldFor(p, m).reasoning
  {
    CountTokensText(p.messages, e, u, m);
    if p.streamingMessage == Some(e.messageId) {
      assert OnComplete(p, e).heldStream == p.heldStream;
    } else {
      assert OnComplete(p, e).messages == p.messages;
    }
  }

  lemma ErrorKeepsText(p: Page, e: ErrorEvent, u: ThreadId, m: MessageId)
    ensures RowText(OnError(p, e), u, m) == RowText(p, u, m)
    ensures OnError(p, e).buffer == p.buffer && OnError(p, e).reasoning == p.reasoning
    ensures p.streamingMessage == Some(m) && m !in p.heldStream ==> m !in OnError(p, e).heldStream
    ensures HeldFor(OnError(p, e), m).tokens == HeldFor(p, m).tokens
    ensures HeldFor(OnError(p, e), m).reasoning == HeldFor(p, m).reasoning
  {
    FinishRowText(p.messages, e.threadId, e.messageId, Error, u, m);
    if p.streamingMessage == Some(e.messageId) {
      assert OnError(p, e).heldStream == p.heldStream;
    } else {
      assert OnError(p, e).messages == p.messages;
    }
  }

  lemma BeginCloseKeepsText(p: Page, e: TurnEvent, u: ThreadId, m: MessageId)
    ensures RowText(BeginClose(p, e), u, m) == RowText(p, u, m)
    ensures BeginClose(p, e).buffer == p.buffer && BeginClose(p, e).reasoning == p.reasoning
    ensures BeginClose(p, e).heldStream == p.heldStream
  {
    if e.assistantId.Some? {
      FinishRowText(p.messages, e.threadId, e.assistantId.value, e.finish, u, m);
    }
  }

  lemma AddToolKeepsText(list: seq<Row>, e: ToolEvent, m: MessageId)
    requires Has(list, m)
    ensures Has(AddTool(list, e), m)
    ensures AddTool(list, e)[IndexOf(AddTool(list, e), m)] == list[IndexOf(list, m)]
  {
    AppendIndex(list, ToolRow(e), m);
  }

  lemma ToolKeepsText(p: Page, e: ToolEvent, u: ThreadId, m: MessageId)
    requires RowText(p, u, m).Some?
    ensures RowText(OnTool(p, e), u, m) == RowText(p, u, m)
  {
    AddRowsAt(p.messages, e.threadId, [e]);
    AddToolsOne(GetOr(p.messages, e.threadId, []), e);
    if u == e.threadId {
      AddToolKeepsText(p.messages[u], e, m);
    }
  }

  lemma RestoreToolsKeepsText(p: Page, t: ThreadId, u: ThreadId, m: MessageId)
    requires RowText(p, u, m).Some?
    ensures RowText(RestoreTools(p, t), u, m) == RowText(p, u, m)
  {
    RestoreToolsKeeps(p, t);
    if t == u {
      AddToolsKeepsRow(p.messages[u], GetOr(p.heldTools, t, []), m);
    }
  }

  // ---- setting up a turn ------------------------------------------------------------------------

  /** The new assistant row starts empty. */
  lemma SeedRowsText(list: seq<Row>, r: Accepted, content: string, modelId: Option<string>, mode: Option<Mode>)
    requires r.userId != r.assistantId && !Has(list, r.assistantId)
    ensures var rows := SeedRows(list, r, content, modelId, mode);
            Has(rows, r.assistantId) && rows[IndexOf(rows, r.assistantId)].content == ""
  {
    AppendIndex(list, UserRow(r, content), r.assistantId);
    var withUser := if Has(list, r.userId) then list else list + [UserRow(r, content)];
    AppendIndex(withUser, AssistantRow(r, modelId, mode), r.assistantId);
  }

  lemma SeedStreamText(p: Page, r: Accepted, content: string, modelId: Option<string>, mode: Option<Mode>)
    requires r.userId != r.assistantId && !Has(GetOr(p.messages, r.threadId, []), r.assistantId)
    ensures RowText(SeedStream(p, r, content, modelId, mode), r.threadId, r.assistantId) == Some("")
  {
    SeedRowsText(GetOr(p.messages, r.threadId, []), r, content, modelId, mode);
  }

  /** The page shows exactly `h` for the message it streams in thread `t`. */
  predicate Displays(p: Page, t: ThreadId, m: MessageId, h: Text) {
    p.streamingMessage == Some(m) && p.streamingThread == Some(t)
    && p.buffer == h.content && GetOr(p.reasoning, m, "") == h.reasoning
    && m !in p.heldStream && RowText(p, t, m) == Some(h.content)
  }

  lemma TokenDisplays(p: Page, t: ThreadId, m: MessageId, h: Text, delta: string, reasoning: string)
    requires Displays(p, t, m, h)
    ensures Displays(OnToken(p, m, delta, reasoning), t, m, Heard(h, Delta(delta, reasoning)))
  {
    AppendTextText(p.messages, t, m, delta);
  }

  lemma RetryDisplays(p: Page, t: ThreadId, m: MessageId, h: Text)
    requires Displays(p, t, m, h)
    ensures Displays(OnRetry(p, m), t, m, SILENT)
  {
    var row := Find(p.messages, t, m);
    PutRowText(p.messages, t, row.value.(content := ""), t, m);
  }

  lemma CompleteDisplays(p: Page, t: ThreadId, m: MessageId, h: Text, e: CompleteEvent)
    requires Displays(p, t, m, h)
    ensures Displays(OnComplete(p, e), t, m, h)
  {
    CompleteKeepsText(p, e, t, m);
    CompleteKeeps(p, e);
  }

  lemma ErrorDisplays(p: Page, t: ThreadId, m: MessageId, h: Text, e: ErrorEvent)
    requires Displays(p, t, m, h)
    ensures Displays(OnError(p, e), t, m, h)
  {
    ErrorKeepsText(p, e, t, m);
    ErrorKeeps(p, e);
  }

  /** Replaying what was held for a freshly installed stream shows exactly that. */
  lemma RestoreStreamDisplays(p: Page, t: ThreadId, m: MessageId, h: Text)
    requires p.streamingMessage == Some(m) && p.streamingThread == Some(t)
    requires p.buffer == "" && GetOr(p.reasoning, m, "") == "" && RowText(p, t, m) == Some("")
    requires Holds(p, m, h)
    ensures Displays(RestoreStream(p, m), t, m, h)
  {
    var held := HeldFor(p, m);
    var taken := p.(heldStream := p.heldStream - {m},
                    buffer := if held.retryReset then "" else p.buffer,
                    reasoning := if held.retryReset then p.reasoning[m := ""] else p.reasoning);
    assert Displays(taken, t, m, SILENT);
    TokenDisplays(taken, t, m, SILENT, held.tokens, held.reasoning);
    assert Heard(SILENT, Delta(held.tokens, held.reasoning)) == h;
    var spoken := RestoreText(taken, m, held);
    assert Displays(spoken, t, m, h);
    if held.error.Some? {
      ErrorDisplays(spoken, t, m, h, held.error.value);
    } else if held.complete.Some? {
      CompleteDisplays(spoken, t, m, h, held.complete.value);
    }
  }

  lemma RestoreTurnDisplays(p: Page, thread: ThreadId, t: ThreadId, m: MessageId, h: Text)
    requires Displays(p, t, m, h) && !p.setup
    ensures Displays(RestoreTurn(p, thread), t, m, h)
  {
    if thread in p.heldTurns {
      var q := p.(heldTurns := p.heldTurns - {thread});
      BeginCloseKeepsText(q, p.heldTurns[thread], t, m);
      BeginCloseKeeps(q, p.heldTurns[thread]);
    }
  }

  lemma SeedDisplays(p: Page, r: Accepted, request: Request, modelId: Option<string>, h: Text)
    requires r.userId != r.assistantId && !Has(GetOr(p.messages, r.threadId, []), r.assistantId)
    requires Holds(p, r.assistantId, h)
    ensures Displays(Seed(p, r, request, modelId), r.threadId, r.assistantId, h)
  {
    var seeded := SeedStream(p, r, request.content, modelId, request.autonomyMode);
    SeedStreamText(p, r, request.content, modelId, request.autonomyMode);
    assert !seeded.setup && HeldFor(seeded, r.assistantId) == HeldFor(p, r.assistantId);
    SeedTailDisplays(seeded, r, h);
  }

  lemma SeedTailDisplays(seeded: Page, r: Accepted, h: Text)
    requires IsStreamed(seeded, r) && !seeded.setup && seeded.buffer == ""
    requires GetOr(seeded.reasoning, r.assistantId, "") == ""
    requires RowText(seeded, r.threadId, r.assistantId) == Some("") && Holds(seeded, r.assistantId, h)
    ensures Displays(RestoreTurn(RestoreStream(RestoreTools(seeded, r.threadId), r.assistantId), r.threadId),
                     r.threadId, r.assistantId, h)
  {
    var tooled := RestoreTools(seeded, r.threadId);
    RestoreToolsKeepsText(seeded, r.threadId, r.threadId, r.assistantId);
    RestoreToolsKeeps(seeded, r.threadId);
    assert tooled.buffer == "" && tooled.reasoning == seeded.reasoning && tooled.heldStream == seeded.heldStream;
    StreamTailDisplays(tooled, r, h);
  }

  lemma StreamTailDisplays(tooled: Page, r: Accepted, h: Text)
    requires IsStreamed(tooled, r) && !tooled.setup && tooled.buffer == ""
    requires GetOr(tooled.reasoning, r.assistantId, "") == ""
    requires RowText(tooled, r.threadId, r.assistantId) == Some("") && Holds(tooled, r.assistantId, h)
    ensures Displays(RestoreTurn(RestoreStream(tooled, r.assistantId), r.threadId), r.threadId, r.assistantId, h)
  {
    RestoreStreamDisplays(tooled, r.threadId, r.assistantId, h);
    RestoreStreamKeeps(tooled, r.assistantId);
    RestoreTurnDisplays(RestoreStream(tooled, r.assistantId), r.threadId, r.threadId, r.assistantId, h);
  }

  // ---- every step -------------------------------------------------------------------------------

  /** `q` shows or holds the same of `m` as `p`. */
  predicate KeepsText(p: Page, q: Page, m: MessageId) {
    q.streamingMessage == p.streamingMessage && q.streamingThread == p.streamingThread
    && (Streams(p, m) ==>
          q.buffer == p.buffer && GetOr(q.reasoning, m, "") == GetOr(p.reasoning, m, "")
          && (m !in p.heldStream ==> m !in q.heldStream)
          && (RowText(p, p.streamingThread.value, m).Some? ==>
                RowText(q, p.streamingThread.value, m) == RowText(p, p.streamingThread.value, m)))
    && (!Streams(p, m) ==>
          HeldFor(q, m).tokens == HeldFor(p, m).tokens && HeldFor(q, m).reasoning == HeldFor(p, m).reasoning)
  }

  lemma KeptText(s: Sys, s': Sys, m: MessageId, h: Option<Text>)
    requires TurnInv(s) && StreamInv(s, m, h) && KeepsText(s.page, s'.page, m)
    requires s'.closings == s.closings || s.closings == []
    requires s'.call.Reloading? ==> s'.call == s.call
    ensures StreamInv(s', m, h)
  {
  }

  lemma OtherEventKeepsText(s: Sys, step: Step, m: MessageId)
    requires TurnInv(s) && Possible(s, step)
    requires (step.Token? && step.id != m) || (step.Retry? && step.id != m) || step.Completed? || step.Errored?
    ensures KeepsText(s.page, Apply(s, step).page, m)
  {
    var t := if s.page.streamingThread.Some? then s.page.streamingThread.value else ThreadId("");
    match step
    case Token(id, delta, reasoning) => TokenKeeps(s.page, id, delta, reasoning);
    case Retry(id) => RetryKeeps(s.page, id);
    case Completed(e) =>
      CompleteKeeps(s.page, e);
      CompleteKeepsText(s.page, e, t, m);
    case Errored(e) =>
      ErrorKeeps(s.page, e);
      ErrorKeepsText(s.page, e, t, m);
  }

  lemma OpenKeepsText(s: Sys, t: ThreadId, m: MessageId)
    ensures KeepsText(s.page, Select(s.page, t), m)
  {
    var moved := MoveTo(s.page, t);
    assert KeepsText(s.page, moved, m) && moved.messages == s.page.messages;
    if t in s.page.messages {
      ShowSelectedKeepsText(moved, t, m);
      var q := ShowSelected(moved, t);
      assert KeepsText(moved, q, m);
    }
  }

  lemma ShowSelectedKeepsText(p: Page, t: ThreadId, m: MessageId)
    ensures KeepsText(p, ShowSelected(p, t), m)
  {
    UnparkKeeps(p, t);
    var unparked := UnparkPrompts(p, t);
    assert KeepsText(p, unparked, m);
    RestoreToolsKeeps(unparked, t);
    if p.streamingThread.Some? && RowText(unparked, p.streamingThread.value, m).Some? {
      RestoreToolsKeepsText(unparked, t, p.streamingThread.value, m);
    }
  }

  /** The content of the first row of `m` in a list. */
  function TextOf(list: seq<Row>, m: MessageId): Option<string> {
    if Has(list, m) then Some(list[IndexOf(list, m)].content) else None
  }

  /**
   * An awaited list that arrives for the thread `m` streams into has the text heard so far. After the
   * turn's own reload the row no longer counts.
   */
  predicate LateTextFits(s: Sys, step: Step, m: MessageId, h: Option<Text>) {
    step.Opened? && h.Some? && Streams(s.page, m) && s.page.streamingThread == Some(step.thread)
    && (s.closings == [] || s.closings[0].list.None?) ==>
      TextOf(Arrived(s.page, step.thread, step.list, step.latest), m) == Some(h.value.content)
  }

  lemma OpenedKeepsStream(p: Page, t: ThreadId, list: seq<Row>, latest: bool)
    ensures var q := SelectLoaded(p, t, list, latest);
            q.streamingMessage == p.streamingMessage && q.streamingThread == p.streamingThread && q.buffer == p.buffer
            && q.reasoning == p.reasoning && q.heldStream == p.heldStream
  {
  }

  /** Whatever page shows an awaited list, in the thread `m` streams into only the list's text decides. */
  lemma ShownTextDecides(s: Sys, q: Page, t: ThreadId, list: seq<Row>, m: MessageId, h: Option<Text>)
    requires TurnInv(s) && StreamInv(s, m, h)
    requires q.streamingMessage == s.page.streamingMessage && q.streamingThread == s.page.streamingThread
    requires q.buffer == s.page.buffer && q.reasoning == s.page.reasoning && q.heldStream == s.page.heldStream
    requires t in q.messages && q.messages[t] == list && s.page.streamingThread == Some(t)
    ensures StreamInv(s.(page := q), m, h) <==>
            (h.Some? && Streams(s.page, m) && (s.closings == [] || s.closings[0].list.None?)
             ==> TextOf(list, m) == Some(h.value.content))
  {
  }

  /** `selectThread`'s late list keeps the shown text if and only if it has that text itself. */
  lemma LateTextIff(s: Sys, t: ThreadId, list: seq<Row>, latest: bool, m: MessageId, h: Option<Text>)
    requires TurnInv(s) && StreamInv(s, m, h)
    ensures var step := Opened(t, list, latest);
            StreamInv(Apply(s, step), m, h) <==> LateTextFits(s, step, m, h)
  {
    if s.page.streamingThread == Some(t) {
      ShownTextIff(s, t, list, latest, m, h);
    } else {
      OpenedKeepsText(s, t, list, latest, m);
      KeptText(s, s.(page := SelectLoaded(s.page, t, list, latest)), m, h);
    }
  }

  lemma ShownTextIff(s: Sys, t: ThreadId, list: seq<Row>, latest: bool, m: MessageId, h: Option<Text>)
    requires TurnInv(s) && StreamInv(s, m, h) && s.page.streamingThread == Some(t)
    ensures StreamInv(s.(page := SelectLoaded(s.page, t, list, latest)), m, h)
            <==> LateTextFits(s, Opened(t, list, latest), m, h)
  {
    OpenedKeepsStream(s.page, t, list, latest);
    OpenedInstalls(s.page, t, list, latest);
    ShownTextDecides(s, SelectLoaded(s.page, t, list, latest), t, Arrived(s.page, t, list, latest), m, h);
  }

  /** If the list has the row, held tool rows do not matter: its own content decides. */
  lemma LateRowDecides(p: Page, t: ThreadId, list: seq<Row>, latest: bool, m: MessageId)
    requires Has(list, m)
    ensures TextOf(Arrived(p, t, list, latest), m) == Some(list[IndexOf(list, m)].content)
  {
    AddToolsKeepsRow(list, GetOr(p.heldTools, t, []), m);
  }

  lemma OpenedKeepsText(s: Sys, t: ThreadId, list: seq<Row>, latest: bool, m: MessageId)
    requires s.page.streamingThread != Some(t)
    ensures KeepsText(s.page, SelectLoaded(s.page, t, list, latest), m)
  {
    var loaded := s.page.(messages := s.page.messages[t := list]);
    assert KeepsText(s.page, loaded, m);
    ShowSelectedKeepsText(loaded, t, m);
  }

  lemma ToolStepKeepsText(s: Sys, e: ToolEvent, m: MessageId)
    ensures KeepsText(s.page, OnTool(s.page, e), m)
  {
    var q := OnTool(s.page, e);
    assert q == s.page.(messages := q.messages, heldTools := q.heldTools);
    if s.page.streamingThread.Some? && RowText(s.page, s.page.streamingThread.value, m).Some? {
      ToolKeepsText(s.page, e, s.page.streamingThread.value, m);
    }
  }

  lemma TurnKeepsText(s: Sys, e: TurnEvent, m: MessageId)
    ensures KeepsText(s.page, OnTurnComplete(s.page, e), m)
  {
    if s.page.streamingThread.Some? {
      BeginCloseKeepsText(s.page, e, s.page.streamingThread.value, m);
    }
    BeginCloseKeepsText(s.page, e, e.threadId, m);
    BeginCloseKeeps(s.page, e);
  }

  /** The response sets up its own turn with the text held for it, and keeps what is held for others. */
  lemma SeedStepText(s: Sys, step: Step, m: MessageId, h: Option<Text>)
    requires TurnInv(s) && StreamInv(s, m, h) && Possible(s, step) && Promised(s, step)
    requires step.Respond? && !s.call.retry
    ensures StreamInv(Apply(s, step), m, h)
  {
    var r := step.result;
    var adopted := Adopt(s.page, r);
    assert adopted.messages == s.page.messages && adopted.heldStream == s.page.heldStream && adopted.setup == s.page.setup;
    StepPreserves(s, step);
    if r.assistantId == m {
      SeedDisplays(adopted, r, s.call.request, step.modelId, h.value);
    } else {
      SeedStreamsOnly(adopted, r, s.call.request, step.modelId, m);
    }
  }

  lemma ReloadStepText(s: Sys, list: seq<Row>, modelId: Option<string>, m: MessageId, h: Option<Text>)
    requires TurnInv(s) && StreamInv(s, m, h) && Possible(s, Reload(list, modelId)) && Promised(s, Reload(list, modelId))
    ensures StreamInv(Apply(s, Reload(list, modelId)), m, NextText(s, Reload(list, modelId), m, h))
  {
    var r := s.call.result;
    var loaded := s.page.(messages := s.page.messages[r.threadId := list]);
    RetryReloadedKeeps(s.page, s.call.result, s.call.request, modelId, list);
    if Finished(list, r.assistantId) {
      BeginCloseKeepsText(
        loaded.(streamingMessage := Some(r.assistantId), streamingThread := Some(r.threadId), setup := false,
                heldStream := loaded.heldStream - {r.assistantId}, heldTurns := loaded.heldTurns - {r.threadId}),
        TurnEvent(r.threadId, Some(r.assistantId), list[IndexOf(list, r.assistantId)].finishReason.value),
        r.threadId, m);
    } else if r.assistantId == m {
      SeedDisplays(loaded, r, s.call.request, modelId, h.value);
    } else {
      SeedStreamsOnly(loaded, r, s.call.request, modelId, m);
    }
  }

  /** Setting up a turn takes only its own held text. */
  lemma SeedStreamsOnly(p: Page, r: Accepted, request: Request, modelId: Option<string>, m: MessageId)
    requires m != r.assistantId
    ensures var q := Seed(p, r, request, modelId);
            HeldFor(q, m).tokens == HeldFor(p, m).tokens && HeldFor(q, m).reasoning == HeldFor(p, m).reasoning
            && IsStreamed(q, r)
  {
    var seeded := SeedStream(p, r, request.content, modelId, request.autonomyMode);
    assert seeded.heldStream == p.heldStream && IsStreamed(seeded, r) && !seeded.setup;
    SeedTailOnly(seeded, r, m);
  }

  lemma SeedTailOnly(seeded: Page, r: Accepted, m: MessageId)
    requires m != r.assistantId && IsStreamed(seeded, r) && !seeded.setup
    ensures var q := RestoreTurn(RestoreStream(RestoreTools(seeded, r.threadId), r.assistantId), r.threadId);
            HeldFor(q, m).tokens == HeldFor(seeded, m).tokens && HeldFor(q, m).reasoning == HeldFor(seeded, m).reasoning
            && IsStreamed(q, r)
  {
    RestoreToolsKeeps(seeded, r.threadId);
    var tooled := RestoreTools(seeded, r.threadId);
    assert tooled.heldStream == seeded.heldStream;
    StreamTailOnly(tooled, r, m);
  }

  lemma StreamTailOnly(tooled: Page, r: Accepted, m: MessageId)
    requires m != r.assistantId && IsStreamed(tooled, r) && !tooled.setup
    ensures var q := RestoreTurn(RestoreStream(tooled, r.assistantId), r.threadId);
            HeldFor(q, m).tokens == HeldFor(tooled, m).tokens && HeldFor(q, m).reasoning == HeldFor(tooled, m).reasoning
            && IsStreamed(q, r)
  {
    RestoreStreamKeeps(tooled, r.assistantId);
    RestoreStreamOnly(tooled, r.assistantId, m);
    RestoreTurnHolds(RestoreStream(tooled, r.assistantId), r.threadId);
  }

  lemma RestoreTurnHolds(p: Page, t: ThreadId)
    requires !p.setup
    ensures var q := RestoreTurn(p, t);
            q.heldStream == p.heldStream && q.streamingMessage == p.streamingMessage && q.streamingThread == p.streamingThread
  {
    RestoreTurnKeeps(p, t);
    if t in p.heldTurns {
      BeginCloseKeepsText(p.(heldTurns := p.heldTurns - {t}), p.heldTurns[t], t, MessageId(""));
    }
  }

  lemma RestoreStreamOnly(p: Page, id: MessageId, m: MessageId)
    requires Streams(p, id) && m != id
    ensures var q := RestoreStream(p, id);
            HeldFor(q, m).tokens == HeldFor(p, m).tokens && HeldFor(q, m).reasoning == HeldFor(p, m).reasoning
  {
    var held := HeldFor(p, id);
    var taken := p.(heldStream := p.heldStream - {id},
                    buffer := if held.retryReset then "" else p.buffer,
                    reasoning := if held.retryReset then p.reasoning[id := ""] else p.reasoning);
    var spoken := RestoreText(taken, id, held);
    assert HeldFor(spoken, m) == HeldFor(p, m);
    RestoreOutcomeOnly(spoken, held, m);
  }

  lemma RestoreOutcomeOnly(p: Page, held: Held, m: MessageId)
    ensures var q := RestoreOutcome(p, held);
            HeldFor(q, m).tokens == HeldFor(p, m).tokens && HeldFor(q, m).reasoning == HeldFor(p, m).reasoning
  {
    if held.error.Some? {
      ErrorKeepsText(p, held.error.value, ThreadId(""), m);
    } else if held.complete.Some? {
      CompleteKeepsText(p, held.complete.value, ThreadId(""), m);
    }
  }

  lemma OwnEventText(s: Sys, step: Step, m: MessageId, h: Option<Text>)
    requires TurnInv(s) && StreamInv(s, m, h) && Possible(s, step) && Promised(s, step)
    requires (step.Token? && step.id == m) || (step.Retry? && step.id == m)
    ensures StreamInv(Apply(s, step), m, NextText(s, step, m, h))
  {
    if Streams(s.page, m) {
      var t := s.page.streamingThread.value;
      assert Displays(s.page, t, m, h.value);
      match step
      case Token(_, delta, reasoning) => TokenDisplays(s.page, t, m, h.value, delta, reasoning);
      case Retry(_) => RetryDisplays(s.page, t, m, h.value);
    }
  }

  lemma ClosingStepText(s: Sys, step: Step, m: MessageId, h: Option<Text>)
    requires TurnInv(s) && StreamInv(s, m, h) && Possible(s, step)
    requires step.ClosingLoaded? || step.ClosingFailed? || step.ClosingSettled? || step.New?
    ensures StreamInv(Apply(s, step), m, NextText(s, step, m, h))
  {
  }

  /** Whether the step says or ends something of the message, or sets up a turn. */
  predicate Speaks(s: Sys, step: Step, m: MessageId) {
    (step.Token? && step.id == m) || (step.Retry? && step.id == m) || step.Respond? || step.Reload?
    || step.ClosingLoaded? || step.ClosingFailed? || step.ClosingSettled? || step.New? || step.Opened?
  }

  lemma SilentKeepsText(s: Sys, step: Step, m: MessageId)
    requires TurnInv(s) && Possible(s, step) && Promised(s, step) && !Speaks(s, step, m)
    ensures KeepsText(s.page, Apply(s, step).page, m)
    ensures Apply(s, step).closings == s.closings || s.closings == []
    ensures Apply(s, step).call.Reloading? ==> Apply(s, step).call == s.call
  {
    match step
    case Tool(e) => ToolStepKeepsText(s, e, m);
    case Turn(e) => TurnKeepsText(s, e, m);
    case Open(t) => OpenKeepsText(s, t, m);
    case Refreshed(t, list) => RefreshedKeepsText(s.page, t, list, m);
    case Ask(t, prompt) => AskKeepsText(s.page, t, prompt, m);
    case Send(_, _, _, _, _) => CallKeepsText(s, step, m);
    case Start(_) => CallKeepsText(s, step, m);
    case Fail(_) => CallKeepsText(s, step, m);
    case Answer(_) => CallKeepsText(s, step, m);
    case Report(_) => CallKeepsText(s, step, m);
    case Compose(_, _) => CallKeepsText(s, step, m);
    case _ => OtherEventKeepsText(s, step, m);
  }

  lemma RefreshedKeepsText(p: Page, t: ThreadId, list: seq<Row>, m: MessageId)
    ensures KeepsText(p, ListRefreshed(p, t, list), m)
  {
    var q := ListRefreshed(p, t, list);
    assert q == p.(messages := q.messages);
    assert p.streamingThread.Some? ==> RowText(q, p.streamingThread.value, m) == RowText(p, p.streamingThread.value, m);
  }

  lemma AskKeepsText(p: Page, t: ThreadId, prompt: Prompt, m: MessageId)
    ensures KeepsText(p, OnPrompt(p, t, prompt), m)
  {
    var q := OnPrompt(p, t, prompt);
    assert q == p.(prompts := q.prompts, parked := q.parked);
    assert q.messages == p.messages;
  }

  lemma CallKeepsText(s: Sys, step: Step, m: MessageId)
    requires Possible(s, step)
    requires step.Send? || step.Start? || step.Fail? || step.Answer? || step.Report? || step.Compose?
    ensures KeepsText(s.page, Apply(s, step).page, m)
  {
    var q := Apply(s, step).page;
    assert q.streamingMessage == s.page.streamingMessage && q.streamingThread == s.page.streamingThread;
    assert q.buffer == s.page.buffer && q.reasoning == s.page.reasoning && q.heldStream == s.page.heldStream;
    assert q.messages == s.page.messages;
  }

  /** Each step changes what the page shows or holds of a message by that message's own event alone. */
  lemma StreamStep(s: Sys, step: Step, m: MessageId, h: Option<Text>)
    requires TurnInv(s) && StreamInv(s, m, h) && Possible(s, step) && Promised(s, step)
    requires LateTextFits(s, step, m, h)
    ensures StreamInv(Apply(s, step), m, NextText(s, step, m, h))
  {
    if step.Opened? {
      LateTextIff(s, step.thread, step.list, step.latest, m, h);
    } else if !Speaks(s, step, m) {
      SilentKeepsText(s, step, m);
      KeptText(s, Apply(s, step), m, h);
    } else if step.Token? || step.Retry? {
      OwnEventText(s, step, m, h);
    } else if step.Respond? {
      if s.call.retry { AdoptStepText(s, step, m, h); } else { SeedStepText(s, step, m, h); }
    } else if step.Reload? {
      ReloadStepText(s, step.list, step.modelId, m, h);
    } else {
      ClosingStepText(s, step, m, h);
    }
  }

  lemma AdoptStepText(s: Sys, step: Step, m: MessageId, h: Option<Text>)
    requires TurnInv(s) && StreamInv(s, m, h) && Possible(s, step) && Promised(s, step)
    requires step.Respond? && s.call.retry
    ensures StreamInv(Apply(s, step), m, h)
  {
    var adopted := Adopt(s.page, step.result);
    assert KeepsText(s.page, adopted, m);
  }

  // ---- whole runs -------------------------------------------------------------------------------

  /** The message's own events in a run. */
  function Events(steps: seq<Step>, m: MessageId): seq<Said> {
    if steps == [] then []
    else
      (match steps[0]
       case Token(id, delta, reasoning) => if id == m then [Delta(delta, reasoning)] else []
       case Retry(id) => if id == m then [Again] else []
       case _ => [])
      + Events(steps[1..], m)
  }

  /** The step drops the message's text: a new chat that is not refused, its own ending, its recovery from storage. */
  predicate DropsText(s: Sys, step: Step, m: MessageId)
    requires Possible(s, step)
  {
    match step
    case New(modelLoading) => !s.page.busy && !modelLoading
    case ClosingFailed(_) => s.page.streamingMessage == Some(m)
    case ClosingSettled(_) => s.page.streamingMessage == Some(m)
    case Reload(list, _) => s.call.result.assistantId == m && Finished(list, m)
    case _ => false
  }

  ghost predicate KeptThroughout(s: Sys, steps: seq<Step>, m: MessageId)
    requires Allowed(s, steps)
    decreases |steps|
  {
    steps != [] ==> !DropsText(s, steps[0], m) && KeptThroughout(Apply(s, steps[0]), steps[1..], m)
  }

  function HeardAll(h: Text, said: seq<Said>): Text
    decreases |said|
  {
    if said == [] then h else HeardAll(Heard(h, said[0]), said[1..])
  }

  lemma {:induction false} HeardAllIsInOrder(before: seq<Said>, said: seq<Said>)
    ensures HeardAll(InOrder(before), said) == InOrder(before + said)
    decreases |said|
  {
    if said == [] {
      assert before + said == before;
    } else {
      InOrderSnoc(before, said[0]);
      HeardAllIsInOrder(before + [said[0]], said[1..]);
      assert before + [said[0]] + said[1..] == before + said;
    }
  }

  /** Every awaited list that arrives for the streaming thread has the text heard by then. */
  ghost predicate LateTextsFit(s: Sys, steps: seq<Step>, m: MessageId, h: Text)
    requires Allowed(s, steps)
    decreases |steps|
  {
    steps != [] ==>
      LateTextFits(s, steps[0], m, Some(h))
      && LateTextsFit(Apply(s, steps[0]), steps[1..], m, GetText(NextText(s, steps[0], m, Some(h))))
  }

  function GetText(h: Option<Text>): Text {
    if h.Some? then h.value else SILENT
  }

  lemma {:induction false} StreamRun(s: Sys, steps: seq<Step>, m: MessageId, h: Text)
    requires TurnInv(s) && Allowed(s, steps) && KeptThroughout(s, steps, m) && StreamInv(s, m, Some(h))
    requires LateTextsFit(s, steps, m, h)
    ensures TurnInv(Exec(s, steps)) && StreamInv(Exec(s, steps), m, Some(HeardAll(h, Events(steps, m))))
    decreases |steps|
  {
    if steps != [] {
      StepPreserves(s, steps[0]);
      StreamStep(s, steps[0], m, Some(h));
      var next := NextText(s, steps[0], m, Some(h)).value;
      StreamRun(Apply(s, steps[0]), steps[1..], m, next);
      assert HeardAll(h, Events(steps, m)) == HeardAll(next, Events(steps[1..], m)) by {
        HeadEvent(steps, m, h);
      }
    }
  }

  lemma HeadEvent(steps: seq<Step>, m: MessageId, h: Text)
    requires steps != []
    ensures HeardAll(h, Events(steps, m)) ==
            HeardAll(match steps[0]
                     case Token(id, delta, reasoning) => if id == m then Heard(h, Delta(delta, reasoning)) else h
                     case Retry(id) => if id == m then SILENT else h
                     case _ => h,
                     Events(steps[1..], m))
  {
    var own := match steps[0]
               case Token(id, delta, reasoning) => if id == m then [Delta(delta, reasoning)] else []
               case Retry(id) => if id == m then [Again] else []
               case _ => [];
    var all := Events(steps, m);
    assert all == own + Events(steps[1..], m);
    if own == [] {
      assert all == Events(steps[1..], m);
    } else {
      assert all[0] == own[0] && all[1..] == Events(steps[1..], m);
    }
  }

  /**
   * Streaming confluence. In every allowed run in which nothing is held of a message at first and its
   * turn is set up somewhere, whatever came before the response and whatever after, and whatever other
   * events lie between: the row, the buffer and the reasoning are those of the message's own events
   * read in order, and nothing of them is held any more. Only a list awaited by `selectThread` that
   * arrives for the streaming thread with another text breaks it, and it always does (`LateTextIff`).
   */
  lemma Confluence(s: Sys, steps: seq<Step>, m: MessageId)
    requires TurnInv(s) && StreamInv(s, m, Some(SILENT)) && !Streams(s.page, m)
    requires Allowed(s, steps) && KeptThroughout(s, steps, m) && LateTextsFit(s, steps, m, SILENT)
    ensures var end := Exec(s, steps); var text := InOrder(Events(steps, m));
            if Streams(end.page, m) then Shows(end, m, text) else Holds(end.page, m, text)
  {
    StreamRun(s, steps, m, SILENT);
    HeardAllIsInOrder([], Events(steps, m));
    assert InOrder([]) == SILENT && [] + Events(steps, m) == Events(steps, m);
  }

  /** Two runs in which a message says the same show the same, wherever the response fell in each. */
  lemma SameEventsShowTheSame(s: Sys, one: seq<Step>, two: seq<Step>, m: MessageId)
    requires TurnInv(s) && StreamInv(s, m, Some(SILENT)) && !Streams(s.page, m)
    requires Allowed(s, one) && KeptThroughout(s, one, m) && LateTextsFit(s, one, m, SILENT)
    requires Allowed(s, two) && KeptThroughout(s, two, m) && LateTextsFit(s, two, m, SILENT)
    requires Events(one, m) == Events(two, m)
    requires Streams(Exec(s, one).page, m) && Streams(Exec(s, two).page, m)
    requires Exec(s, one).closings == [] && Exec(s, two).closings == []
    ensures var p, q := Exec(s, one).page, Exec(s, two).page;
            p.buffer == q.buffer && GetOr(p.reasoning, m, "") == GetOr(q.reasoning, m, "")
            && RowText(p, p.streamingThread.value, m) == RowText(q, q.streamingThread.value, m)
  {
    Confluence(s, one, m);
    Confluence(s, two, m);
  }
}
