# Chat turns, voice, change feed and appearance: a Dafny model

This project models the parts of the application whose difficulty is interleaving, buffering or algebra over
unbounded histories, and proves what they keep in every run.

- **The chat page** (`ChatTypes`, `Rows`, `PageSteps`, `ChatPage`). Every asynchronous function is cut at its
  awaits. `PageSteps` says as a function on values what one uninterrupted stretch does to the page; the class
  `ChatPage` does it in place, field by field, and each of its methods is proved to reach the state `PageSteps`
  gives and to keep `Valid()`, the page's invariant. `ChatSystem` adds what runs beside the page (the call of
  `send`, the reloads of ended turns, the turn the backend works on) and lets any possible step come next; the
  class `ChatApp` performs every such step on a `ChatPage`. `TurnProtocol`, `TurnHazards`, `Streaming`,
  `TranscriptOrder` and `Prompts` prove properties of all runs; `TurnWaiters` models the waiters for the end of
  a turn with their shared sets.
- **Sending once** (`Attempts`, `SendAdmission`, `ExactlyOnce`). The page's half: all attempts with one key are
  the identical request. The backend's half: calls, the operation lock, the two lookups, the transaction and the
  rollback, in any interleaving. Then both together.
- **Voice** (`Voice`): the slot under its mutex, concurrent stops, cap watchers, one task per stopped capture and
  a gate that may close at any time.
- **The change feed** (`VaultEvents`): the two nested loops over any sequence of `select!` outcomes.
- **The appearance** (`AppearanceSchema`, `AppearanceQueue`): queued writes, overlapping reads, the generation
  counter, and the two-write import with its compensation.
- **Smaller cores**: `ConnectPolicy`, `ModelLoadFilter`, `Capabilities`, `Shards`. `Base` holds what they share.

## What the environment is assumed to do

`ChatSystem.Promised` lists it for the chat page, step by step: keys and ids are fresh; a response keeps the
request's thread and, for a first send, follows the start of its turn; persisted lists have distinct ids and an
assistant row only when it is finished; the completion event of a turn is its last event and comes once;
nobody opens or reloads a conversation while `send` sets up a turn, and no reload begun earlier arrives then
(both are assumptions: `src/components/apps/ChatApp.vue:323-331` looks at the setup only before its await); a busy
page cannot send (`src/components/apps/ChatApp.vue:189-198`). Where a result needs more than the code checks, the
exact condition is proved: `RespondSoundIff`, `ReloadSoundIff`, `LateTextIff`, `LateListReadsIff` and `RetryOwnsIff`
below. `ChatSystem` takes the sending of a completion event and its delivery as one step: an end that the backend has
sent before the conversation's next turn starts, but that is delivered after that turn's response, is not expressed,
and `RespondSoundIff` does not cover it.

`Attempts` and `ExactlyOnce` need fresh keys; `TurnOnce` for a request that names its conversation needs besides that no
id made for a new conversation is that one. For the appearance, a write that reports failure has not been performed.

## Where the code and what is said of it differ

- A retried send whose turn has already ended without an answer row leaves the page busy for good: its completion
  event was dropped while the page was idle, and `fail` in `src-tauri/src/chat/turn/persist.rs:132-150` sends one
  without an answer. A retry that finds the answer just before the completion event arrives ends the turn twice,
  and the second end unlocks the page during the next send. The reload of a retry is sound if and only if its turn
  has exactly one end (`TurnProtocol.ReloadSoundIff`); `TurnHazards` gives the runs.
- The same happens to first sends: after a lost send the user opens its conversation and sends again; the failure of
  the first turn names no answer, is held, and ends the second turn while the backend works on it
  (`TurnProtocol.RespondSoundIff`, `TurnHazards.StaleEndPassesForNext`, `TurnHazards.StaleEndEndsNext`).
- `selectThread` installs the list it awaited without looking whether a turn streams into the conversation by then. A
  message sent meanwhile loses its row, or an ended turn its reload, unless the list says the same
  (`Streaming.LateTextIff`, `TranscriptOrder.LateListReadsIff`, `TurnProtocol.TurnEndsPersisted`,
  `TurnHazards.LateListDropsRow`).
- A retry started from another conversation shows that conversation's prompts under the retried one
  (`Prompts.RetryOwnsIff`, `Prompts.RetryMovesPrompts`).
- An answer filters the prompts on screen when it is accepted, not those on screen when it was given: a prompt parked by
  a change of conversation in between waits on, though it is answered (`Prompts.AnswerRemovesIff`,
  `Prompts.LateAnswerLeavesPrompt`).
- A new chat between a failed send and its retry drops the text held for the turn
  (`src/composables/useComposer.ts:275`, `TurnHazards.NewChatDropsHeldText`); `Streaming` counts the message's text
  from there on.
- A repetition that arrives while the first call is being started can be answered with rows that the first call
  then rolls back (`ExactlyOnce.RolledBackAnswer`): answers stay true if and only if no other attempt was answered
  (`ExactlyOnce.RollBackKeepsAnswersIff`), and from each such state the next repetition gets another conversation
  (`ExactlyOnce.RollBackSplitsAnswers`). A send that names no conversation starts a second turn when it is repeated after
  the conversation its turn was begun in was deleted (`ExactlyOnce.DeletedTurnStartsAgain`); one that names its
  conversation never does (`ExactlyOnce.TurnOnce`).
- A cap watcher that saw the cap stops whatever records when it gets the mutex again: the recording it saw exactly
  when that was neither stopped nor cancelled since (`Voice.CapStopsWhatItSaw`, `Voice.StaleCapStopsTheNext`). A task
  refused by a closing gate leaves the slot transcribing for good (`Voice.TranscribingEndsIff`,
  `Voice.RefusedTaskIsReached`).
- A choice set while the appearance is loading, or after the load failed, is merged into the defaults on screen: the
  stored rest is kept if and only if it is the default's, control by control
  (`AppearanceQueue.SetDuringLoadForgets`). With another device writing, an earlier refresh can hide a later one
  (`AppearanceQueue.RefreshShowsStoredIff`, `AppearanceQueue.EarlierRefreshHidesLater`).
- A failed import is documented to take its first write back. It writes the scheme that was on screen, which is the
  stored one only if the scheme was read before: after a failed load the vault ends with the system's scheme, neither
  the old nor the new one (`AppearanceQueue.ImportIsAllOrNothingIff`, `AppearanceQueue.ImportLosesStoredScheme`).
- The settings write the colour scheme past the queue: a scheme chosen while an import is at work is lost to the import's
  own write or its compensation if one comes later (`AppearanceQueue.SettingsSurviveIff`).
- `with_loopback_connect` is documented to lose nothing. That holds if and only if the policy has a `connect-src`
  or a `default-src`; with neither, connections that were free are held to the loopback alone
  (`ConnectPolicy.NothingIsLostIff`).

## Model

| member | source | states |
|---|---|---|
| Rows.AddNewMeaning | src/composables/useChatTranscript.ts:231-296 | tool rows keep the rows already there as a prefix, every id of an event is present, and none twice |
| Rows.AddNewKeepsArrivalOrder | src/composables/useChatTranscript.ts:231-296 | two new rows stand in the order in which their events first arrived, however often they are repeated |
| Rows.AddToolsKeepsRow | src/composables/useChatTranscript.ts:240-241 | a row that is already there stays at its place, unchanged, whatever tool events follow |
| ChatPage.ChatPage.HandleToken | src/composables/useChatTranscript.ts:110-140 | a delta goes to buffer, row and reasoning of the active stream, or is held for its message; nothing else moves |
| ChatPage.ChatPage.HandleRetry | src/composables/useChatTranscript.ts:146-168 | shown or held text of the message is emptied, and the reset is remembered if it was held |
| ChatPage.ChatPage.HandleComplete | src/composables/useChatTranscript.ts:175-197 | the named row gets the token counts if it is streaming, else the event is held and replaces a held error |
| ChatPage.ChatPage.HandleError | src/composables/useChatTranscript.ts:199-221 | the row is finished with an error and the fault shown, or the event is held and replaces a held completion |
| ChatPage.ChatPage.HandleTool | src/composables/useChatTranscript.ts:231-296 | the event becomes one row of its open conversation, or is queued behind earlier ones |
| ChatPage.ChatPage.DrainTools | src/composables/useComposer.ts:184-191 | the held tool events of a conversation become rows in their order, and none is held any more |
| ChatPage.ChatPage.HandlePrompt | src/composables/useChatTranscript.ts:333-344 | a prompt is shown once in its open conversation, or parked behind earlier ones |
| ChatPage.ChatPage.HandleTurnComplete | src/composables/useChatTranscript.ts:364-377 | held during setup, dropped for a turn that does not stream, else it ends the turn |
| ChatPage.ChatPage.ApplyTurnComplete | src/composables/useChatTranscript.ts:301-310 | prompts of the ended turn go, its row gets the finish reason |
| ChatPage.ChatPage.ReloadedAfterTurn | src/composables/useChatTranscript.ts:311-317 | the persisted list replaces the thread's rows and its held tool events |
| ChatPage.ChatPage.SettleTurn | src/composables/useChatTranscript.ts:318-329 | whatever failed before, the page leaves the stream and is no longer busy |
| ChatPage.ChatPage.BeginSend | src/composables/useComposer.ts:83-102 | sends exactly when there is a draft and sending is allowed, the kept request on a retry, and enters setup |
| ChatPage.ChatPage.AdoptThread | src/composables/useComposer.ts:103-111 | the accepted conversation is opened with its parked prompts before those shown |
| ChatPage.ChatPage.SetUpTurn | src/composables/useComposer.ts:134-217 | placeholders, the active stream, then everything held for the turn in the fixed order; says whether the turn ended at once |
| ChatPage.ChatPage.ResumeRetry | src/composables/useComposer.ts:112-133 | a retry ends a turn it finds finished, otherwise it sets the turn up on the reloaded list |
| ChatPage.ChatPage.FailSend | src/composables/useComposer.ts:225-233 | the request is kept whole and the page unlocked |
| ChatPage.ChatPage.StartNewChat | src/composables/useComposer.ts:257-277 | refused while busy; otherwise shown prompts are parked with their conversation and the stream forgotten |
| ChatPage.ChatPage.SelectThread | src/composables/useThreadSidebar.ts:277-322 | prompts are parked and brought back with their conversations, held tool rows are added; says whether a list is awaited |
| ChatPage.ChatPage.ThreadLoaded | src/composables/useThreadSidebar.ts:290-320 | a list that arrives too late is stored but brings no prompts or tool rows back |
| ChatPage.ChatPage.Answered | src/composables/useChatTab.ts:75-101 | exactly the prompts of the answered request go, the others keep their order |
| ChatPage.SettledKeepsInv | src/composables/useChatTranscript.ts:323-328 | the end of a turn keeps the page's invariant if and only if no turn is being set up |
| ChatApp.ChatApp.Perform | src/composables/useChatTranscript.ts:110-377 | each step of the interleaving is performed on the page as modelled, and keeps a sound state sound |
| ChatApp.ChatApp.Play | src/composables/useChatTranscript.ts:110-377 | whole runs of the program are the runs the results below are about |
| ChatPage.FilterPrompts | src/composables/useChatTab.ts:81-83 | the loop keeps all other prompts in order |
| TurnProtocol.InitialIsSound | src/components/apps/ChatApp.vue:68-82 | the page starts in a sound state |
| TurnProtocol.StepPreserves | src/composables/useComposer.ts:83-234 | every step keeps: setup implies busy, the two streaming ids are set together and only while busy and past setup, ids of a list are distinct, a busy page has something outstanding |
| TurnProtocol.RunPreserves | src/composables/useChatTranscript.ts:301-377 | the same over runs of any length |
| TurnProtocol.RespondSoundIff | src/composables/useComposer.ts:207-217 | a first send is set up soundly if and only if no older completion event of the thread is held while the turn's own is owed |
| TurnProtocol.ReloadSoundIff | src/composables/useComposer.ts:112-133 | a retry's reload is sound if and only if the retried turn has exactly one end |
| TurnProtocol.DeliveryLowersLeft | src/composables/useChatTranscript.ts:301-377 | each response, reload or completion event lowers the bound on what is still to come |
| TurnProtocol.TurnEndsIdle | src/composables/useChatTranscript.ts:301-377 | wherever the completion event falls: finitely many deliveries remain, one is possible while any is outstanding, and with none the page is idle |
| TurnProtocol.EndingWaits | src/composables/useChatTranscript.ts:311-329 | nothing but its own stretches touches an ending that has begun |
| TurnProtocol.TurnEndsPersisted | src/composables/useChatTranscript.ts:311-329 | a turn whose reload succeeded ends idle, its thread showing exactly the persisted list, or the last list `selectThread` had awaited that arrived after it |
| TurnProtocol.RetryOfFinishedTurnEnds | src/composables/useComposer.ts:112-133 | a retry that finds its turn finished ends idle with that list and no duplicates, whatever happens between its stretches |
| TurnHazards.NoEndIsStuck | src/composables/useComposer.ts:112-133 | a retried turn without any end leaves the page busy with nothing to come |
| TurnHazards.StuckForever | src/composables/useChatTranscript.ts:364-373 | no continuation whatever leaves that state |
| TurnHazards.LostCompletionStrandsRetry | src-tauri/src/chat/turn/persist.rs:132-150 | it is reachable: lost response, turn fails while the page is idle, retry |
| TurnHazards.EndedTwice | src/composables/useComposer.ts:121-132 | a retry that finds its turn finished while the event is still owed begins two endings |
| TurnHazards.SecondEndUnlocksNextTurn | src/composables/useChatTranscript.ts:323-328 | the second ending unlocks the page while the next send is set up |
| TurnHazards.LateListDropsRow | src/composables/useThreadSidebar.ts:294-304 | a run that keeps every promise in which a streaming message has no row |
| TurnHazards.StaleEndPassesForNext | src/composables/useChatTranscript.ts:364-368 | a run that keeps every promise after which an older end is held for a first send |
| TurnHazards.StaleEndEndsNext | src/composables/useComposer.ts:213-217 | from every such state the answer leaves the page idle while the backend works on the turn |
| TurnHazards.NewChatDropsHeldText | src/composables/useComposer.ts:257-277 | a run in which a new chat drops text that the kept request's retry would have shown |
| Streaming.SinceRetryMeaning | src/composables/useChatTranscript.ts:146-168 | the reference reading keeps exactly the longest run of deltas after the last retry |
| Streaming.LateTextIff | src/composables/useThreadSidebar.ts:294-304 | a list that arrives for the streaming thread keeps the shown text if and only if it has that text |
| Streaming.LateRowDecides | src/composables/useThreadSidebar.ts:294-320 | if the list has the row, its content decides, whatever tool rows are added |
| Streaming.StreamStep | src/composables/useChatTranscript.ts:110-168 | a step changes the shown or held text of a message by that message's own event alone, a late list of another text apart |
| Streaming.Confluence | src/composables/useComposer.ts:134-207 | for every split of a message's events around the response, row, buffer and reasoning are the in-order text since the last retry, as long as late lists have the text heard by then and no step drops the text: a new chat that is not refused, the message's own ending, its recovery from storage |
| Streaming.SameEventsShowTheSame | src/composables/useComposer.ts:134-207 | two runs with the same events of a message show the same, wherever the response fell |
| TranscriptOrder.LateListReadsIff | src/composables/useThreadSidebar.ts:294-320 | a list that arrives for the thread keeps the order if and only if it has it, with what is held |
| TranscriptOrder.FirstSendOrder | src/composables/useComposer.ts:134-191 | after a first send the thread's rows are the old ones, the user and the assistant row, then one row per tool event in arrival order |
| Prompts.PromptStep | src/composables/useComposer.ts:105-111 | shown prompts stay with the open conversation; what waits changes only by arrival, answer or the end of its own turn |
| Prompts.PromptStays | src/composables/useChatTranscript.ts:301-303 | a prompt waits until it is answered or its own conversation's turn ends, over runs of any length |
| Prompts.PromptsKeepOrder | src/composables/useThreadSidebar.ts:280-311 | unanswered prompts wait in arrival order, each once, however they are parked and shown between |
| Prompts.AnswerRemovesIff | src/composables/useChatTab.ts:75-101 | after an accepted answer no prompt of its request waits for a conversation if and only if none is parked there; prompts of other requests stay |
| Prompts.LateAnswerLeavesPrompt | src/composables/useChatTab.ts:75-101 | from every state: an answer accepted after another conversation was opened leaves its prompt waiting at home |
| Prompts.FirstSendLandsAtHome | src/composables/useComposer.ts:103-111 | a first send never moves the page under shown prompts |
| Prompts.RetryOwnsIff | src/composables/useComposer.ts:103-111 | a retry keeps prompts with their conversation if and only if none is shown or the accepted conversation is open |
| Prompts.RetryMovesPrompts | src/composables/useComposer.ts:103-111 | a run in which it does not |
| TurnWaiters.EndedTurnIsNotPending | src/composables/useChatTranscript.ts:67-74 | a streaming turn makes its conversation pending, and once it is settled, reloaded or not, it no longer is |
| TurnWaiters.TurnWaiters.WaitForTurnTerminal | src/composables/useChatTranscript.ts:76-94 | answers at once if nothing is pending, else leaves one new live waiter, last in the set the map holds |
| TurnWaiters.TurnWaiters.TimeOut | src/composables/useChatTranscript.ts:80-84 | resolves the waiter false, once; the map's entry goes only with its last waiter |
| TurnWaiters.TurnWaiters.Finish | src/composables/useChatTranscript.ts:85-90 | resolves the waiter true, once; the map's entry goes only with its last waiter |
| TurnWaiters.TurnWaiters.ResolveTurnTerminal | src/composables/useChatTranscript.ts:96-100 | answers every live waiter of the conversation, in the order in which they began to wait, and touches no other |
| Attempts.RunKeepsWire | src/composables/useComposer.ts:83-102 | in every run, with fresh keys and no other promise, requests with one key are identical, and the request kept for a retry was sent before |
| Attempts.RetryRepeats | src/composables/useComposer.ts:225-233 | a retry after a failure sends the failed request again and leaves a newer draft alone |
| SendAdmission.ChatStore.FindByIdempotencyKey | src-tauri/src/storage/chat_messages.rs:231-245 | the loop finds a row of the key exactly when there is one |
| SendAdmission.ChatStore.ResolveIdempotentSend | src-tauri/src/chat/send_admission.rs:66-100 | fresh without such a row, the row's own ids if thread and content agree, a mismatch otherwise |
| SendAdmission.ChatStore.PersistSendTransaction | src-tauri/src/chat/send_admission.rs:130-218 | the whole new store for each outcome; refused outcomes change nothing |
| SendAdmission.ChatStore.CleanUpStagedSend | src-tauri/src/chat/commands.rs:59-78 | the send's row goes, and its conversation if the send created it |
| SendAdmission.WrittenKeepsKeyed | src-tauri/src/chat/send_admission.rs:130-218 | the transaction never needs the unique index to reject a second row of a key |
| SendAdmission.PersistThenResolve | src-tauri/src/chat/send_admission.rs:61-100 | after a persisted send each repetition, with or without the thread, gets the first ids back |
| SendAdmission.LegacyRowKeepsItsPair | src-tauri/src/chat/send_admission.rs:83-99 | a row of the older id scheme is answered with the older pair |
| SendAdmission.CleanUpUndoesPersist | src-tauri/src/chat/commands.rs:59-78 | rolling a fresh send back restores the tables exactly |
| ExactlyOnce.ActionKeepsInv | src-tauri/src/chat/commands.rs:283-604 | each step of any call keeps: one row per key, rows and answers belong to their request, no key conflict |
| ExactlyOnce.MessageOnce | src-tauri/src/chat/commands.rs:283-604 | for any run of the page and any interleaving of the backend over its attempts: one row per key, as it was sent, no conflict, one pair of ids |
| ExactlyOnce.TurnOnce | src-tauri/src/chat/commands.rs:283-604 | at most one call of a key started a turn, through any failures, repetitions, rollbacks and deletions if the request names its conversation; otherwise as long as the conversation this very turn began in is not deleted |
| ExactlyOnce.DeletionKeepsIff | src-tauri/src/storage/chat_threads.rs:67-87 | a deletion leaves the answers to a key true, and the row of its begun turn, if and only if none of them is in that conversation |
| ExactlyOnce.RepetitionStarts | src-tauri/src/chat/commands.rs:283-604 | a repetition that finds no row of its key and the lock free writes one and starts a turn |
| ExactlyOnce.DeletedTurnStartsAgain | src-tauri/src/storage/chat_threads.rs:67-87 | from every state with a begun turn and the lock free: after its conversation is deleted a repetition that names none starts a second turn |
| ExactlyOnce.TurnRunsToItsEnd | src-tauri/src/chat/commands.rs:283-604 | a run from empty tables that reaches such a state |
| ExactlyOnce.AnswersAgree | src-tauri/src/chat/commands.rs:317-400 | two answers to one key are equal: always when the request named its conversation, else when nothing an answer to this key names is taken away |
| ExactlyOnce.ActionKeepsAnswersIff | src-tauri/src/chat/commands.rs:59-78 | a step leaves all answers to a key true if and only if what it takes away is named by none of them |
| ExactlyOnce.RollBackKeepsAnswersIff | src-tauri/src/chat/commands.rs:533-556 | a rollback does so if and only if it is of another key or no other attempt was answered |
| ExactlyOnce.RollBackSplitsAnswers | src-tauri/src/chat/commands.rs:533-556 | from every state in which another attempt was answered, a repetition after the rollback is answered with another conversation |
| ExactlyOnce.RolledBackAnswer | src-tauri/src/chat/commands.rs:533-556 | a run in which an answer names rows that are rolled back |
| ExactlyOnce.AnswersKeepPromises | src-tauri/src/chat/commands.rs:283-604 | the backend's answers keep what the page assumes of a response's ids and conversation |
| Voice.StepKeepsInv | src-tauri/src/voice.rs:83-92 | every step keeps the ownership invariant of slot, captures, tasks, channels and stops |
| Voice.ReleasedOnce | src-tauri/src/voice.rs:83-92 | in every interleaving each started capture is stopped or cancelled exactly once, unless it still records |
| Voice.OneTaskPerStop | src-tauri/src/voice.rs:215-238 | exactly one transcription per stopped capture, none for a cancelled one |
| Voice.OnlyOwnTaskEnds | src-tauri/src/voice.rs:226-233 | the slot leaves transcribing only by the last write of its own task |
| Voice.ResetFindsItsOwn | src-tauri/src/voice.rs:231-232 | that unguarded write never finds a newer recording |
| Voice.EveryStopHearsTheResult | src-tauri/src/voice.rs:215-250 | each stop of a recording, own or joined, is answered with its one result; only a gate that refused the task makes it fail |
| Voice.WaitingStopIsAnswered | src-tauri/src/voice.rs:243-250 | no stop waits in vain: at most the task's result is missing |
| Voice.CoalescedStopsAgree | src-tauri/src/voice.rs:207-250 | stops of one recording answered at different times in a run got the same result |
| Voice.CapCanFire | src-tauri/src/voice.rs:257-285 | while a recording runs and the gate is open its watcher is alive and can stop it within three steps |
| Voice.TranscribingEndsIff | src-tauri/src/voice.rs:223-233 | transcribing can end if and only if the gate took the task |
| Voice.RefusedTaskIsReached | src-tauri/src/voice.rs:226-234 | a run after which it cannot |
| Voice.StopsOnlyIff | src-tauri/src/voice.rs:262-278 | a watcher that saw the cap stops no other recording than a given one if and only if no other is in the slot |
| Voice.CapStopsWhatItSaw | src-tauri/src/voice.rs:262-278 | if something records when it gets the mutex, it stops what it saw exactly when that was neither stopped nor cancelled since |
| Voice.StaleCapStopsTheNext | src-tauri/src/voice.rs:262-278 | a run in which it stops the recording after its own |
| Voice.VoiceState.Play | src-tauri/src/voice.rs:83-285 | the methods, run in any interleaving, reach the modelled state and keep the ownership invariant |
| Voice.VoiceState.StartVoiceRecording | src-tauri/src/voice.rs:153-176 | only an idle slot starts, and only with a device |
| Voice.VoiceState.CancelRecording | src-tauri/src/voice.rs:83-92 | a running capture is cancelled and the slot idle; otherwise nothing happens |
| Voice.VoiceState.DoStop | src-tauri/src/voice.rs:215-242 | the first stop takes the capture and spawns its task, later ones join, an idle slot refuses |
| Voice.VoiceState.PollCap | src-tauri/src/voice.rs:261-276 | one round of the watcher; it goes on only while a recording below its cap is in the slot |
| Voice.VoiceState.AnswerStop | src-tauri/src/voice.rs:243-250 | a waiting stop gets the channel's value, or the pipeline's closing |
| VaultEvents.InsertMeaning | src-tauri/src/vault_events.rs:116 | inserting keeps the table list ascending and adds just that table |
| VaultEvents.SortedIsUnique | src-tauri/src/vault_events.rs:121 | an announced list is determined by its set of tables |
| VaultEvents.Collect | src-tauri/src/vault_events.rs:110-121 | the inner loop announces the sorted union of all it took since the first report |
| VaultEvents.Run | src-tauri/src/vault_events.rs:99-126 | the announcements are the sorted unions of the windows, one for one |
| VaultEvents.WindowsPartition | src-tauri/src/vault_events.rs:99-126 | the windows are consecutive non-empty runs that together are the reports received |
| VaultEvents.EndAnnouncesAll | src-tauri/src/vault_events.rs:104-124 | when the channel closes or the session is cancelled, everything received has been announced |
| VaultEvents.DeadlinesSpan | src-tauri/src/vault_events.rs:29-32 | k consecutive announcements ended by deadline span at least k - 1 windows |
| VaultEvents.EveryReportIsPrompt | src-tauri/src/vault_events.rs:29-32 | with an ideal scheduler every report is announced at most one window after its receipt |
| AppearanceSchema.ValidIsCanonical | src/lib/appearance/schema.ts:48-71 | a checked choice passes the check again unchanged |
| AppearanceSchema.ParseIsCanonical | src/lib/appearance/schema.ts:78-100 | whatever is stored, reading gives canonical choices |
| AppearanceSchema.ParseUndoesSerializeIff | src/lib/appearance/schema.ts:78-113 | reading undoes storing if and only if the appearance is canonical |
| AppearanceSchema.CheckedIsCanonical | src/composables/useAppearance.ts:138-152 | the changes `setAsync` lets through are canonical |
| AppearanceQueue.StepKeepsInv | src/composables/useAppearance.ts:90-200 | every step keeps: a read of the current generation saw what is stored, and what is shown is stored unless a write or load is under way |
| AppearanceQueue.ShownEqualsStored | src/composables/useAppearance.ts:90-158 | from any load on, for any overlap of loads, refreshes and writes: with no write in between and no load running, shown equals stored |
| AppearanceQueue.LoadShowsDefaults | src/composables/useAppearance.ts:111-118 | while a load counts and none has answered, the defaults are on screen |
| AppearanceQueue.SetKeepsStoredIff | src/composables/useAppearance.ts:153-157 | a queued choice keeps the stored rest if and only if the screen agrees with it, control by control, when its turn comes |
| AppearanceQueue.SetDuringLoadForgets | src/composables/useAppearance.ts:111-157 | during a load, or after it failed, that is so if and only if everything left out is stored with its default |
| AppearanceQueue.GenerationStaysIff | src/composables/useAppearance.ts:90-135 | the generation is the same at the end of a run if and only if no write went on and no refresh that was not outdated was answered |
| AppearanceQueue.ReturnShowsStoredIff | src/composables/useAppearance.ts:118-135 | an answer that has what is stored brings it on screen if and only if its generation is the current one, or it was there already |
| AppearanceQueue.RefreshShowsStoredIff | src/composables/useAppearance.ts:125-135 | a refresh called after the last change from elsewhere shows what is stored, with no write between the vault and the code, if and only if nothing counted between its call and its answer, or it was shown already; if nothing counted, `ShownEqualsStored` holds again from there |
| AppearanceQueue.EarlierRefreshHidesLater | src/composables/useAppearance.ts:125-135 | runs in which it is not: an older value stays on screen |
| AppearanceQueue.QueueIsFifo | src/composables/useAppearance.ts:101-108 | what ended, what is at work and what waits are the calls in call order |
| AppearanceQueue.QueueFolds | src/composables/useAppearance.ts:101-164 | with no read running, the shown value is the left fold of the successful operations in call order, and is what is stored |
| AppearanceQueue.ImportLeaves | src/composables/useAppearance.ts:174-200 | what each way of ending leaves in the vault, whatever reads and calls come between the writes, unless the settings write then |
| AppearanceQueue.ImportIsAllOrNothingIff | src/composables/useAppearance.ts:174-200 | all new on success, untouched if the first write fails, old after the compensation if and only if the stored scheme was on screen |
| AppearanceQueue.SettingsSurviveIff | src/composables/useColorScheme.ts:71-78 | a scheme the settings write while an import is at work is the vault's at its end if and only if the import writes no scheme after it, or the same one |
| AppearanceQueue.ImportShows | src/composables/useAppearance.ts:177-200 | with no read and no choice in the settings in between the screen shows both new or both old; only a failed compensation leaves the new scheme alone |
| AppearanceQueue.ImportLosesStoredScheme | src/composables/useColorScheme.ts:50-58 | a run in which a failed load and a failed import lose the stored scheme |
| AppearanceQueue.AppearanceState.Play | src/composables/useAppearance.ts:90-200 | the methods, run in any interleaving on this device, reach the modelled state and keep the invariant |
| AppearanceQueue.AppearanceState.SetAsync | src/composables/useAppearance.ts:138-158 | an invalid choice is refused whole, valid ones are queued |
| AppearanceQueue.AppearanceState.BeginNext | src/composables/useAppearance.ts:153-190 | the oldest operation starts on what is shown at that moment |
| AppearanceQueue.AppearanceState.Resume | src/composables/useAppearance.ts:90-99 | a performed write is shown and outdates every running read |
| AppearanceQueue.AppearanceState.WriteFailed | src/composables/useAppearance.ts:187-197 | nothing is shown of a failed write; an import takes its scheme back |
| AppearanceQueue.AppearanceState.LoadAsync | src/composables/useAppearance.ts:111-118 | the defaults are shown while the load runs |
| AppearanceQueue.AppearanceState.ReadReturned | src/composables/useAppearance.ts:118-135 | an outdated read changes nothing |
| ConnectPolicy.WithLoopbackConnect | src-tauri/src/platform_probe.rs:225-255 | the rewritten header, read back, is the old policy with the loopback opened, for every header |
| ConnectPolicy.Named | src-tauri/src/platform_probe.rs:232-239 | finds the first directive of the name in either case |
| ConnectPolicy.JoinIsRead | src-tauri/src/platform_probe.rs:254 | the joined directives are read back one for one |
| ConnectPolicy.LoopbackIsAdded | src-tauri/src/platform_probe.rs:240-253 | connections are held to the old sources, own or inherited, and the loopback |
| ConnectPolicy.OthersStay | src-tauri/src/platform_probe.rs:225-255 | every other directive stays in place, unchanged, and as much in force as before |
| ConnectPolicy.NothingIsLostIff | src-tauri/src/platform_probe.rs:223-224 | nothing allowed is lost if and only if there was a connect-src or a default-src; with neither every other source is |
| ConnectPolicy.StandardReading | src-tauri/src/platform_probe.rs:226-231 | on text where Rust and ASCII white space agree this is the reading of section 2.2.1 of Content Security Policy Level 3 |
| ModelLoadFilter.LoadFilter.AcceptsModelLoadEvent | src/composables/useChat.ts:288-308 | passes exactly keys not below the latest in lexicographic order, and then becomes the latest |
| ModelLoadFilter.LoadFilter.StatusAnswered | src/composables/useChat.ts:526-539 | the query's answer follows the same rule as the events |
| ModelLoadFilter.LoadFilter.ReceiveAll | src/composables/useChat.ts:517-566 | for any interleaving of the subscriptions and the query, what the filter delivers in all |
| ModelLoadFilter.LatestIsMax | src/composables/useChat.ts:285-308 | the latest key is the largest of all seen |
| ModelLoadFilter.DeliveredIff | src/composables/useChat.ts:517-566 | news is delivered if and only if it is not below anything seen before, delivered or not |
| ModelLoadFilter.OrderDoesNotMatter | src/composables/useChat.ts:285-308 | the final key depends only on what arrived, not on the order |
| ModelLoadFilter.DeliveredKeysRise | src/composables/useChat.ts:285-308 | delivered keys never go back, and the last one is the latest |
| Capabilities.ApplyingIsIdempotent | src-tauri/src/model_capabilities.rs:198-235 | laying over twice is laying over once, and withdrawing after it is withdrawing directly |
| Capabilities.ApplyingCommutesWithNormalized | src-tauri/src/model_capabilities.rs:198-247 | the overlay and the repair of stored records commute |
| Capabilities.EmptyPresetsIff | src-tauri/src/model_capabilities.rs:198-247 | an empty preset list is left exactly when it was stored and no levels are stated; never after the repair |
| Capabilities.OnlyStatedFieldsChange | src-tauri/src/model_capabilities.rs:198-221 | unstated fields are the provider's, stated ones do not depend on it |
| Capabilities.StatementsSurviveRefreshes | src-tauri/src/storage/models.rs:253-280 | stating and refreshing commute, the last statement counts alone, a withdrawal is complete with the next refresh |
| Capabilities.LatestOfHighestIsKept | src-tauri/src/storage/models.rs:204-230 | findings applied one by one keep the latest of the highest rank |
| Shards.PrintedIsParsed | scripts/e2e/cli.ts:149-158 | a written shard is read back, and exactly the pairs with 1 ≤ i ≤ n are accepted |
| Shards.SelectShard | scripts/e2e/cli.ts:161-169 | the selection is the names at the shard's positions, in their order |
| Shards.PositionsMeaning | scripts/e2e/cli.ts:166-168 | a shard has exactly the positions of its residue, ascending |
| Shards.ShardsPartition | scripts/e2e/cli.ts:161-169 | every position is in exactly one of the n shards |
| Shards.ShardsAreEven | scripts/e2e/cli.ts:160-169 | the sizes of any two shards differ by at most one |

## Left out

- Deleting and renaming conversations, the composer's text area, agent counters, expanded reasoning and
  `useChatNavigation.ts`; clearing all waiters when the chat window closes (`src/components/apps/ChatApp.vue:379`).
- Row creation times and a tool call's origin: nothing the model states depends on them.
- The "retrying" mark in the streaming results: a held retry does not set it. When a completion and an error of one
  message are both held, the last one is kept, as in the code.
- Failures of scrolling, and a failed refresh of the conversation list after a send, which only sets the error shown.
- Streaming.Confluence: counts a message's text from the last new chat or reload, because both drop it in the code.
- The digest behind name-based ids (two names are assumed to give two ids), the row's parent under equal clock
  readings, titles, model and provider columns, attachments, the assistant rows a turn writes, and cancellation.
- Voice: the transcription itself, the microphone permission, the model cache, and tasks that a closing gate aborts
  after taking them.
- The broadcast to Rust subscribers of the change feed and its lag.
- JSON text of the appearance (a stored value is taken as the fields it holds), the appearance file's checks, the
  derived colours and CSS variables; colour-scheme writes by another device.
- VaultEvents.EveryReportIsPrompt: has no counterpart without an ideal scheduler, where `select!` may keep taking
  reports after the deadline.
- ConnectPolicy.StandardReading: white space beyond ASCII is split by the code and not by the standard.
- The precision of JavaScript numbers in a shard option of more than fifteen digits.
- Thin wrappers around commands and events, the window manager, sync, sockets, process spawning and reporting.
