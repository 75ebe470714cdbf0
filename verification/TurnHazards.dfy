/**
 * What the page does when a promise is not kept: runs the code allows in which it stays busy for good,
 * unlocks while a turn is being set up or worked on, or loses a streaming row or held text. The lemmas
 * whose names end in `Iff` in `TurnProtocol` and `Streaming` say exactly when this cannot happen.
 */
module TurnHazards {
  import opened Base
  import opened ChatTypes
  import opened Rows
  import opened PageSteps
  import opened ChatSystem
  import opened TurnProtocol

  /** Busy, with nothing left to come. */
  predicate Stuck(s: Sys) {
    s.page.busy && s.call.NoCall? && s.closings == [] && s.owed.None?
  }

  lemma StuckStep(s: Sys, step: Step)
    requires Stuck(s) && Possible(s, step)
    ensures Stuck(Apply(s, step))
  {
    match step
    case Token(id, delta, reasoning) => TokenKeeps(s.page, id, delta, reasoning);
    case Retry(id) => RetryKeeps(s.page, id);
    case Completed(e) => CompleteKeeps(s.page, e);
    case Errored(e) => ErrorKeeps(s.page, e);
    case Tool(e) => ToolKeepsBusy(s.page, e);
    case Ask(t, prompt) => AskKeepsBusy(s.page, t, prompt);
    case Open(t) => OpenKeepsBusy(s.page, t);
    case Opened(t, list, latest) => OpenedKeepsBusy(s.page, t, list, latest);
    case _ =>
  }

  lemma ToolKeepsBusy(p: Page, e: ToolEvent)
    ensures OnTool(p, e).busy == p.busy
  {
  }

  lemma AskKeepsBusy(p: Page, t: ThreadId, prompt: Prompt)
    ensures OnPrompt(p, t, prompt).busy == p.busy
  {
  }

  lemma OpenKeepsBusy(p: Page, t: ThreadId)
    ensures Select(p, t).busy == p.busy
  {
    var moved := MoveTo(p, t);
    assert moved.busy == p.busy;
    UnparkKeeps(moved, t);
    RestoreToolsKeeps(UnparkPrompts(moved, t), t);
  }

  lemma OpenedKeepsBusy(p: Page, t: ThreadId, list: seq<Row>, latest: bool)
    ensures SelectLoaded(p, t, list, latest).busy == p.busy
  {
    var loaded := p.(messages := p.messages[t := list]);
    UnparkKeeps(loaded, t);
    RestoreToolsKeeps(UnparkPrompts(loaded, t), t);
  }

  lemma StuckWithoutEnd(s: Sys, q: Page)
    requires q.busy && s.owed.None?
    ensures Stuck(s.(page := q, call := NoCall, closings := []))
  {
  }

  lemma NothingBegins(s: Sys, list: seq<Row>, modelId: Option<string>)
    requires TurnInv(s) && s.call.Reloading?
    requires !Finished(list, s.call.result.assistantId) && !HeldTurnEnds(s.page, s.call.result)
    ensures Apply(s, Reload(list, modelId)) == s.(
              page := RetryReloaded(s.page, s.call.result, s.call.request, modelId, list), call := NoCall, closings := [])
  {
  }

  /** A retried turn without any end leaves the page stuck. */
  lemma NoEndIsStuck(s: Sys, list: seq<Row>, modelId: Option<string>)
    requires TurnInv(s) && s.call.Reloading? && ReloadPromised(s, list)
    requires !Finished(list, s.call.result.assistantId) && s.owed.None? && !HeldTurnEnds(s.page, s.call.result)
    ensures Stuck(Apply(s, Reload(list, modelId)))
  {
    var q := RetryReloaded(s.page, s.call.result, s.call.request, modelId, list);
    assert q.busy by {
      RetryReloadedKeeps(s.page, s.call.result, s.call.request, modelId, list);
    }
    StuckWithoutEnd(s, q);
    NothingBegins(s, list, modelId);
  }

  /** No run leaves a stuck state, whatever the user or the backend does. */
  lemma {:induction false} StuckForever(s: Sys, steps: seq<Step>)
    requires Stuck(s) && PossibleRun(s, steps)
    ensures Stuck(RunTo(s, steps))
    decreases |steps|
  {
    if steps != [] {
      StuckStep(s, steps[0]);
      StuckForever(Apply(s, steps[0]), steps[1..]);
    }
  }

  lemma Then(s: Sys, step: Step, rest: seq<Step>)
    requires Possible(s, step) && PossibleRun(Apply(s, step), rest)
    ensures PossibleRun(s, [step] + rest) && RunTo(s, [step] + rest) == RunTo(Apply(s, step), rest)
  {
    assert ([step] + rest)[1..] == rest;
  }

  const T := ThreadId("t")
  const U := MessageId("u")
  const A := MessageId("a")
  const TURN := Accepted(T, U, A)
  const REQUEST := Request(None, "x", "k", None, None, [])
  const USER_ROW := Row(U, T, None, User, "x", None, None, None, Some(Complete), None, None, None, None, None, None)
  const ANSWER_ROW := Row(A, T, None, Assistant, "y", None, None, None, Some(Complete), None, None, None, None, None, None)
  const LOST := Thrown("response lost")

  /** A first send whose turn the backend started and whose response was lost. */
  const AFTER_LOSS := [Compose("x", []), Send(false, false, "k", None, None), Start(TURN), Fail(LOST)]

  const UNSENT := EMPTY_PAGE.(pendingSend := Some(REQUEST), lastError := Some(LOST))

  lemma RequestGoesOut()
    ensures var steps := [Compose("x", []), Send(false, false, "k", None, None)];
            Allowed(INITIAL, steps)
            && Exec(INITIAL, steps) ==
                 Sys(EMPTY_PAGE.(busy := true, setup := true), Waiting(REQUEST, false, None), [], None, [REQUEST])
  {
    var draft, send := Compose("x", []), Send(false, false, "k", None, None);
    var s1 := Apply(INITIAL, draft);
    assert Trim("x") == "x";
    AllowedThen(s1, send, []);
    AllowedThen(INITIAL, draft, [send] + []);
    assert [draft] + ([send] + []) == [draft, send];
  }

  lemma ResponseIsLost(s: Sys, turn: Accepted, fault: Fault)
    requires s.call.Waiting? && s.call.started.None? && s.owed.None?
    ensures var steps := [Start(turn), Fail(fault)];
            Allowed(s, steps)
            && Exec(s, steps) == s.(page := SendFailed(s.page, s.call.request, fault), call := NoCall, owed := Some(turn))
  {
    var s1 := Apply(s, Start(turn));
    AllowedThen(s1, Fail(fault), []);
    AllowedThen(s, Start(turn), [Fail(fault)] + []);
    assert [Start(turn)] + ([Fail(fault)] + []) == [Start(turn), Fail(fault)];
  }

  lemma LossIsAllowed()
    ensures Allowed(INITIAL, AFTER_LOSS) && TurnInv(Exec(INITIAL, AFTER_LOSS))
    ensures Exec(INITIAL, AFTER_LOSS) == Sys(UNSENT, NoCall, [], Some(TURN), [REQUEST])
  {
    var sent, lost := [Compose("x", []), Send(false, false, "k", None, None)], [Start(TURN), Fail(LOST)];
    RequestGoesOut();
    ResponseIsLost(Exec(INITIAL, sent), TURN, LOST);
    AllowedFollow(INITIAL, sent, lost);
    assert sent + lost == AFTER_LOSS;
    InitialIsSound();
    RunPreserves(INITIAL, AFTER_LOSS);
  }

  lemma LossReaches()
    ensures PossibleRun(INITIAL, AFTER_LOSS)
    ensures RunTo(INITIAL, AFTER_LOSS) == Sys(UNSENT, NoCall, [], Some(TURN), [REQUEST])
  {
    LossIsAllowed();
    AllowedIsPossible(INITIAL, AFTER_LOSS);
  }

  lemma Follow(s: Sys, first: seq<Step>, second: seq<Step>)
    requires PossibleRun(s, first) && PossibleRun(RunTo(s, first), second)
    ensures PossibleRun(s, first + second) && RunTo(s, first + second) == RunTo(RunTo(s, first), second)
    decreases |first|
  {
    if first == [] {
      assert first + second == second;
    } else {
      assert (first + second)[1..] == first[1..] + second;
      Follow(Apply(s, first[0]), first[1..], second);
    }
  }

  /** From an idle page with a pending request and no held completion, a retry of an ended turn gets stuck. */
  lemma RetryOfEndedTurn(s: Sys) returns (steps: seq<Step>)
    requires TurnInv(s) && !s.page.busy && s.call.NoCall? && s.owed.None? && s.closings == []
    requires s.page.pendingSend == Some(REQUEST) && s.page.heldTurns == map[]
    ensures PossibleRun(s, steps) && Stuck(RunTo(s, steps))
  {
    var again, answered, list := Send(true, false, "", None, None), Respond(TURN, None), Reload([USER_ROW], None);
    var s1 := Apply(s, again);
    SendPreserves(s, again);
    assert s1.call == Waiting(REQUEST, true, None) && s1.page.heldTurns == map[];
    var s2 := Apply(s1, answered);
    RespondSoundIff(s1, TURN, None);
    assert s2.call == Reloading(REQUEST, TURN, None) && s2.page.heldTurns == map[];
    assert IndexOf([USER_ROW][1..], A) == -1;
    var s3 := Apply(s2, list);
    NoEndIsStuck(s2, [USER_ROW], None);
    assert PossibleRun(s3, []);
    Then(s2, list, []);
    var r2 := [list] + [];
    Then(s1, answered, r2);
    var r1 := [answered] + r2;
    Then(s, again, r1);
    steps := [again] + r1;
  }

  /**
   * A lost response, a turn that fails without an answer row while the page is idle, then a retry:
   * the page streams a turn that is over, and stays busy in every continuation (`StuckForever`).
   */
  lemma LostCompletionStrandsRetry()
    ensures exists steps :: PossibleRun(INITIAL, steps) && Stuck(RunTo(INITIAL, steps))
  {
    LossReaches();
    var s0 := RunTo(INITIAL, AFTER_LOSS);
    assert TurnInv(s0);
    var failed := Turn(TurnEvent(T, None, Error));
    var s1 := Apply(s0, failed);
    TurnPreserves(s0, TurnEvent(T, None, Error));
    assert s1.page == s0.page && s1.owed.None? && s1.closings == [];
    var stuck := RetryOfEndedTurn(s1);
    Then(s0, failed, stuck);
    Follow(INITIAL, AFTER_LOSS, [failed] + stuck);
  }

  /** A reload left over on an idle page unlocks the next turn's setup when it settles. */
  lemma LeftoverUnlocks(s: Sys) returns (steps: seq<Step>)
    requires !s.page.busy && |s.closings| == 1 && s.closings[0].list.None?
    ensures PossibleRun(s, steps) && RunTo(s, steps).page.setup && !RunTo(s, steps).page.busy
  {
    var draft, next, failed := Compose("x", []), Send(false, false, "n", None, None), ClosingFailed(LOST);
    assert Trim("x") == "x";
    var s1 := Apply(s, draft);
    var s2 := Apply(s1, next);
    assert s2.page.setup && s2.closings == s.closings;
    var s3 := Apply(s2, failed);
    assert PossibleRun(s3, []);
    Then(s2, failed, []);
    var r2 := [failed] + [];
    Then(s1, next, r2);
    var r1 := [next] + r2;
    Then(s, draft, r1);
    steps := [draft] + r1;
  }

  /** A retry that finds its turn finished while the completion event is still owed ends it twice. */
  lemma EndedTwice(s: Sys, list: seq<Row>) returns (steps: seq<Step>)
    requires TurnInv(s) && s.call.Reloading? && ReloadPromised(s, list)
    requires Finished(list, s.call.result.assistantId) && s.owed == Some(s.call.result)
    ensures PossibleRun(s, steps)
    ensures var end := RunTo(s, steps); !end.page.busy && |end.closings| == 1 && end.closings[0].list.None?
  {
    var r := s.call.result;
    var loaded, ended, failed :=
      Reload(list, None), Turn(TurnEvent(r.threadId, Some(r.assistantId), Complete)), ClosingFailed(LOST);
    RetryReloadedKeeps(s.page, s.call.result, s.call.request, None, list);
    ReloadBegins(s, list, None);
    var s1 := Apply(s, loaded);
    assert s.closings == [] && |s1.closings| == 1 && s1.closings[0].list.None?;
    assert Ends(s1.page, ended.turnEnd);
    var s2 := Apply(s1, ended);
    assert |s2.closings| == 2;
    var s3 := Apply(s2, failed);
    assert PossibleRun(s3, []);
    Then(s2, failed, []);
    var r2 := [failed] + [];
    Then(s1, ended, r2);
    var r1 := [ended] + r2;
    Then(s, loaded, r1);
    steps := [loaded] + r1;
  }

  /**
   * A lost response and a retry that finds the answer just before its completion event arrives: the
   * turn is ended twice, and the second end unlocks the page while the next turn is being set up.
   */
  lemma SecondEndUnlocksNextTurn()
    ensures exists steps :: PossibleRun(INITIAL, steps)
                            && RunTo(INITIAL, steps).page.setup && !RunTo(INITIAL, steps).page.busy
  {
    LossReaches();
    var s0 := RunTo(INITIAL, AFTER_LOSS);
    assert TurnInv(s0);
    var again, answered := Send(true, false, "", None, None), Respond(TURN, None);
    var s1 := Apply(s0, again);
    SendPreserves(s0, again);
    assert s1.call == Waiting(REQUEST, true, None) && s1.owed == Some(TURN);
    var s2 := Apply(s1, answered);
    RespondSoundIff(s1, TURN, None);
    assert s2.call == Reloading(REQUEST, TURN, None);
    assert IndexOf([ANSWER_ROW], A) == 0;
    var twice := EndedTwice(s2, [ANSWER_ROW]);
    var unlocked := LeftoverUnlocks(RunTo(s2, twice));
    Follow(s2, twice, unlocked);
    Then(s1, answered, twice + unlocked);
    var r1 := [answered] + (twice + unlocked);
    Then(s0, again, r1);
    Follow(INITIAL, AFTER_LOSS, [again] + r1);
  }

  // ---- runs that keep every promise up to the step shown -------------------------------------------

  lemma AllowedThen(s: Sys, step: Step, rest: seq<Step>)
    requires Possible(s, step) && Promised(s, step) && Allowed(Apply(s, step), rest)
    ensures Allowed(s, [step] + rest) && Exec(s, [step] + rest) == Exec(Apply(s, step), rest)
  {
    assert ([step] + rest)[1..] == rest;
  }

  lemma AllowedFollow(s: Sys, first: seq<Step>, second: seq<Step>)
    requires Allowed(s, first) && Allowed(Exec(s, first), second)
    ensures Allowed(s, first + second) && Exec(s, first + second) == Exec(Exec(s, first), second)
  {
    ExecSplit(s, first, second);
  }

  /** A conversation is opened and a message sent into it. */
  function OpenAndSend(t: ThreadId, text: string, key: string): seq<Step> {
    [Open(t), Compose(text, []), Send(false, false, key, None, None)]
  }

  lemma OpenAndSendIsAllowed(s: Sys, t: ThreadId, text: string, key: string) returns (end: Sys)
    requires !s.page.busy && s.call.NoCall? && t !in s.page.messages && Trim(text) == text && text != ""
    requires forall i :: 0 <= i < |s.wire| ==> s.wire[i].key != key
    ensures Allowed(s, OpenAndSend(t, text, key)) && Exec(s, OpenAndSend(t, text, key)) == end
    ensures end.call == Waiting(Request(Some(t), text, key, None, None, []), false, None)
    ensures end.page.setup && end.page.messages == s.page.messages && end.page.heldTurns == s.page.heldTurns
    ensures end.owed == s.owed && end.closings == s.closings
  {
    var entered, draft, send := Open(t), Compose(text, []), Send(false, false, key, None, None);
    var s1 := Apply(s, entered);
    assert s1.page.messages == s.page.messages && s1.page.active == Some(t) && !s1.page.busy;
    var s2 := Apply(s1, draft);
    end := Apply(s2, send);
    AllowedThen(s2, send, []);
    AllowedThen(s1, draft, [send] + []);
    AllowedThen(s, entered, [draft] + ([send] + []));
    assert OpenAndSend(t, text, key) == [entered] + ([draft] + ([send] + []));
  }

  /** Before the list of the opened conversation comes, the message is accepted and its turn set up. */
  lemma SendWhileListIsAwaited(s: Sys, t: ThreadId, r: Accepted, key: string) returns (steps: seq<Step>)
    requires TurnInv(s) && !s.page.busy && s.call.NoCall? && s.owed.None?
    requires t !in s.page.messages && s.page.heldTurns == map[] && forall i :: 0 <= i < |s.wire| ==> s.wire[i].key != key
    requires r.threadId == t && r.userId != r.assistantId
    ensures Allowed(s, steps) && TurnInv(Exec(s, steps)) && IsStreamed(Exec(s, steps).page, r)
    ensures Exec(s, steps).call.NoCall? && Exec(s, steps).closings == [] && t !in Exec(s, steps).page.heldTools
  {
    assert Trim("x") == "x";
    var s3 := OpenAndSendIsAllowed(s, t, "x", key);
    RunPreserves(s, OpenAndSend(t, "x", key));
    AnswerIsAllowed(s3, r);
    AllowedFollow(s, OpenAndSend(t, "x", key), [Start(r), Respond(r, None)]);
    steps := OpenAndSend(t, "x", key) + [Start(r), Respond(r, None)];
  }

  lemma AnswerIsAllowed(s: Sys, r: Accepted)
    requires TurnInv(s) && s.call.Waiting? && !s.call.retry && s.call.started.None? && s.owed.None?
    requires s.call.request.threadId == Some(r.threadId) && r.userId != r.assistantId
    requires r.threadId !in s.page.messages && s.page.heldTurns == map[]
    ensures Allowed(s, [Start(r), Respond(r, None)])
    ensures var end := Exec(s, [Start(r), Respond(r, None)]);
            TurnInv(end) && IsStreamed(end.page, r) && end.call.NoCall? && end.closings == []
            && r.threadId !in end.page.heldTools
  {
    StepPreserves(s, Start(r));
    RespondSettles(Apply(s, Start(r)), r);
    AllowedThen(Apply(s, Start(r)), Respond(r, None), []);
    AllowedThen(s, Start(r), [Respond(r, None)] + []);
    assert [Start(r)] + ([Respond(r, None)] + []) == [Start(r), Respond(r, None)];
  }

  lemma RespondSettles(s: Sys, r: Accepted)
    requires TurnInv(s) && s.call.Waiting? && !s.call.retry && RespondPromised(s, r) && s.page.heldTurns == map[]
    ensures var end := Apply(s, Respond(r, None));
            TurnInv(end) && IsStreamed(end.page, r) && end.call.NoCall? && end.closings == []
            && r.threadId !in end.page.heldTools
  {
    RespondSoundIff(s, r, None);
    SeedKeeps(Adopt(s.page, r), r, s.call.request, None);
    assert s.closings == [] && HeldClosing(s.page, r) == [];
  }

  /**
   * `selectThread` awaits a list and does not look at the turn when it comes: a message sent meanwhile
   * streams on, but its row is gone when the list was read before the message was stored.
   */
  lemma LateListDropsRow()
    ensures exists steps :: Allowed(INITIAL, steps) && IsStreamed(Exec(INITIAL, steps).page, TURN)
                            && Exec(INITIAL, steps).closings == [] && Find(Exec(INITIAL, steps).page.messages, T, A).None?
  {
    InitialIsSound();
    var sent := SendWhileListIsAwaited(INITIAL, T, TURN, "k");
    var s := Exec(INITIAL, sent);
    var late := Opened(T, [], true);
    OpenedInstalls(s.page, T, [], true);
    assert Arrived(s.page, T, [], true) == [];
    AllowedThen(s, late, []);
    AllowedFollow(INITIAL, sent, [late] + []);
  }

  const U2 := MessageId("u2")
  const A2 := MessageId("a2")
  const NEXT_TURN := Accepted(T, U2, A2)
  const FAILED_TURN := TurnEvent(T, None, Error)

  /**
   * After a lost send the user opens its conversation and sends something new; the first turn fails
   * meanwhile. Its end, which names no answer, is held and passes for the end of the second turn.
   */
  lemma StaleEndPassesForNext()
    ensures exists steps :: Allowed(INITIAL, steps) && TurnInv(Exec(INITIAL, steps))
                            && PassesForNext(Exec(INITIAL, steps), NEXT_TURN)
  {
    LossIsAllowed();
    var s0 := Exec(INITIAL, AFTER_LOSS);
    assert Trim("y") == "y";
    var s3 := OpenAndSendIsAllowed(s0, T, "y", "k2");
    var sent := OpenAndSend(T, "y", "k2");
    RunPreserves(s0, sent);
    AllowedFollow(INITIAL, AFTER_LOSS, sent);
    StaleEndIsHeld(s3);
    AllowedFollow(INITIAL, AFTER_LOSS + sent, [Turn(FAILED_TURN), Start(NEXT_TURN)]);
  }

  lemma StaleEndIsHeld(s: Sys)
    requires TurnInv(s) && s.call.Waiting? && !s.call.retry && s.call.started.None? && s.owed == Some(TURN)
    requires s.page.setup && s.page.messages == map[] && s.page.heldTurns == map[] && s.call.request.threadId == Some(T)
    ensures Allowed(s, [Turn(FAILED_TURN), Start(NEXT_TURN)])
    ensures TurnInv(Exec(s, [Turn(FAILED_TURN), Start(NEXT_TURN)]))
    ensures PassesForNext(Exec(s, [Turn(FAILED_TURN), Start(NEXT_TURN)]), NEXT_TURN)
  {
    var s4 := Apply(s, Turn(FAILED_TURN));
    assert s4.page.heldTurns == map[T := FAILED_TURN] && s4.owed.None? && s4.call == s.call;
    var s5 := Apply(s4, Start(NEXT_TURN));
    AllowedThen(s4, Start(NEXT_TURN), []);
    AllowedThen(s, Turn(FAILED_TURN), [Start(NEXT_TURN)] + []);
    assert [Turn(FAILED_TURN)] + ([Start(NEXT_TURN)] + []) == [Turn(FAILED_TURN), Start(NEXT_TURN)];
    RunPreserves(s, [Turn(FAILED_TURN), Start(NEXT_TURN)]);
  }

  /** A first send is answered while an older completion event is held that passes for its turn's. */
  ghost predicate PassesForNext(s: Sys, r: Accepted) {
    s.call.Waiting? && !s.call.retry && RespondPromised(s, r) && s.owed == Some(r) && HeldTurnEnds(s.page, r)
  }

  /** Then the answer ends the turn at once: the page is idle while the backend still works on it. */
  lemma StaleEndEndsNext(s: Sys, r: Accepted, fault: Fault)
    requires TurnInv(s) && PassesForNext(s, r)
    ensures !TurnInv(Apply(s, Respond(r, None)))
    ensures PossibleRun(s, [Respond(r, None), ClosingFailed(fault)])
    ensures var end := RunTo(s, [Respond(r, None), ClosingFailed(fault)]);
            Idle(end.page) && end.call.NoCall? && end.closings == [] && end.owed == Some(r)
  {
    RespondSoundIff(s, r, None);
    var answered := Apply(s, Respond(r, None));
    assert s.closings == [] && answered.closings == [Began(s.page.heldTurns[r.threadId])];
    SeedKeeps(Adopt(s.page, r), r, s.call.request, None);
    Then(answered, ClosingFailed(fault), []);
    Then(s, Respond(r, None), [ClosingFailed(fault)] + []);
    assert [Respond(r, None)] + ([ClosingFailed(fault)] + []) == [Respond(r, None), ClosingFailed(fault)];
  }

  /** A new chat forgets whatever is held for any message: the text is kept if and only if there was none. */
  lemma NewChatForgets(s: Sys, m: MessageId)
    requires !s.page.busy
    ensures HeldFor(Apply(s, New(false)).page, m) == NOTHING_HELD
    ensures HeldFor(Apply(s, New(false)).page, m).tokens == HeldFor(s.page, m).tokens <==> HeldFor(s.page, m).tokens == ""
  {
  }

  /** So between a lost send and its retry it drops text the retry would have shown. */
  lemma NewChatDropsHeldText()
    ensures exists steps :: Allowed(INITIAL, steps) && HeldFor(Exec(INITIAL, steps).page, A).tokens == "hi"
                            && Exec(INITIAL, steps).page.pendingSend == Some(REQUEST)
                            && Possible(Exec(INITIAL, steps), New(false)) && Promised(Exec(INITIAL, steps), New(false))
                            && HeldFor(Apply(Exec(INITIAL, steps), New(false)).page, A).tokens == ""
                            && Apply(Exec(INITIAL, steps), New(false)).page.pendingSend == Some(REQUEST)
  {
    LossIsAllowed();
    var s := Exec(INITIAL, AFTER_LOSS);
    var said := Token(A, "hi", "");
    var heard := Apply(s, said);
    assert heard.page == s.page.(heldStream := map[A := NOTHING_HELD.(tokens := "" + "hi", reasoning := "" + "")]);
    assert "" + "hi" == "hi";
    AllowedThen(s, said, []);
    AllowedFollow(INITIAL, AFTER_LOSS, [said] + []);
    NewChatForgets(heard, A);
  }
}
