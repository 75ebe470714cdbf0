/**
 * The voice pipeline: one slot under a mutex, shared by recordings, their cap watchers, any number of
 * concurrent stops, and the transcription task of each stopped recording. Every step is what one of
 * them does between two points where it waits or gives the mutex up.
 */
module Voice {
  import opened Base

  datatype StopOutcome = Text(text: string) | Failure(reason: string)

  datatype Slot = Idle | Recording(capture: nat) | Transcribing(recording: nat)

  /** The task of a stopped recording; `Refused` when a closing gate did not take it. */
  datatype Task = NoTask | Working | Sent | Finished | Refused

  /** The cap watcher a recording spawned; `Capped` has seen the cap and is about to stop. */
  datatype Watcher = Unspawned | Polling | Capped | Awaiting(stop: nat) | Ended | Turned

  /**
   * One started capture: how often it was stopped and cancelled, how many tasks were spawned for it, and
   * the channel its stops wait on.
   */
  datatype Rec = Rec(
    stopped: nat, cancelled: nat, tasks: nat, task: Task, channel: Option<StopOutcome>, watcher: Watcher)

  datatype Reply = Heard(outcome: StopOutcome) | NotRecording | NotSpawned | Closed

  /** One call of `do_stop`: waiting on a recording's channel, or answered. */
  datatype Stop = Waits(recording: nat) | Replied(of: Option<nat>, reply: Reply)

  /** `open`: the vault's gate still takes new tasks. */
  datatype State = State(slot: Slot, recs: seq<Rec>, stops: seq<Stop>, open: bool)

  /** The slot holds a recording that exists. */
  predicate SlotFits(v: State) {
    match v.slot
    case Idle => true
    case Recording(n) => n < |v.recs|
    case Transcribing(n) => n < |v.recs|
  }

  const NEW_REC := Rec(0, 0, 0, NoTask, None, Unspawned)
  const SILENT := State(Idle, [], [], true)

  type Voice = v: State | SlotFits(v) witness SILENT

  datatype Step =
    | Start(granted: bool)               // `granted`: the device could be opened
    | SpawnWatcher(n: nat)
    | Cancel
    | StopCall
    | Poll(n: nat, capped: bool)         // `capped`: what the capture in the slot says of its cap
    | CapStop(n: nat)
    | Send(n: nat, outcome: StopOutcome)
    | Reset(n: nat)
    | Answer(k: nat)
    | Emit(n: nat)
    | CloseGate

  predicate Possible(v: Voice, step: Step) {
    match step
    case SpawnWatcher(n) => n < |v.recs| && v.recs[n].watcher.Unspawned?
    case Poll(n, _) => n < |v.recs| && v.recs[n].watcher.Polling?
    case CapStop(n) => n < |v.recs| && v.recs[n].watcher.Capped?
    case Send(n, _) => n < |v.recs| && v.recs[n].task.Working?
    case Reset(n) => n < |v.recs| && v.recs[n].task.Sent?
    case Answer(k) => k < |v.stops| && v.stops[k].Waits? && v.stops[k].recording < |v.recs| && Settled(v, v.stops[k].recording)
    case Emit(n) =>
      n < |v.recs| && v.recs[n].watcher.Awaiting?
      && v.recs[n].watcher.stop < |v.stops| && v.stops[v.recs[n].watcher.stop].Replied?
    case _ => true
  }

  /** The channel of recording `n` has its value, or its sender is gone. */
  predicate Settled(v: Voice, n: nat)
    requires n < |v.recs|
  {
    v.recs[n].channel.Some? || v.recs[n].task.Refused?
  }

  // ---- the stretches ----------------------------------------------------------------------------

  function OnStart(v: Voice, granted: bool): Voice {
    if !v.slot.Idle? || !granted then v
    else v.(slot := Recording(|v.recs|), recs := v.recs + [NEW_REC])
  }

  function OnSpawnWatcher(v: Voice, n: nat): Voice
    requires n < |v.recs|
  {
    v.(recs := v.recs[n := v.recs[n].(watcher := if v.open then Polling else Turned)])
  }

  function OnCancel(v: Voice): Voice {
    if v.slot.Recording?
    then v.(slot := Idle,
            recs := v.recs[v.slot.capture := v.recs[v.slot.capture].(cancelled := v.recs[v.slot.capture].cancelled + 1)])
    else v
  }

  function StopRec(r: Rec, open: bool): Rec {
    r.(stopped := r.stopped + 1,
       tasks := if open then r.tasks + 1 else r.tasks,
       task := if open then Working else Refused)
  }

  /** `do_stop` up to its wait. */
  function OnStop(v: Voice): Voice {
    match v.slot
    case Idle => v.(stops := v.stops + [Replied(None, NotRecording)])
    case Recording(n) =>
      v.(slot := Transcribing(n),
         recs := v.recs[n := StopRec(v.recs[n], v.open)],
         stops := v.stops + [if v.open then Waits(n) else Replied(Some(n), NotSpawned)])
    case Transcribing(n) => v.(stops := v.stops + [Waits(n)])
  }

  function OnPoll(v: Voice, n: nat, capped: bool): Voice
    requires n < |v.recs|
  {
    if !v.slot.Recording? then v.(recs := v.recs[n := v.recs[n].(watcher := Ended)])
    else if capped then v.(recs := v.recs[n := v.recs[n].(watcher := Capped)])
    else v
  }

  function OnCapStop(v: Voice, n: nat): Voice
    requires n < |v.recs|
  {
    OnStop(v.(recs := v.recs[n := v.recs[n].(watcher := Awaiting(|v.stops|))]))
  }

  function OnSend(v: Voice, n: nat, outcome: StopOutcome): Voice
    requires n < |v.recs|
  {
    v.(recs := v.recs[n := v.recs[n].(task := Sent, channel := Some(outcome))])
  }

  /** The task's last write, whatever the slot holds. */
  function OnReset(v: Voice, n: nat): Voice
    requires n < |v.recs|
  {
    v.(slot := Idle, recs := v.recs[n := v.recs[n].(task := Finished)])
  }

  function OnAnswer(v: Voice, k: nat): Voice
    requires Possible(v, Answer(k))
  {
    var n := v.stops[k].recording;
    var reply := if v.recs[n].channel.Some? then Heard(v.recs[n].channel.value) else Closed;
    v.(stops := v.stops[k := Replied(Some(n), reply)])
  }

  function Apply(v: Voice, step: Step): Voice
    requires Possible(v, step)
  {
    match step
    case Start(granted) => OnStart(v, granted)
    case SpawnWatcher(n) => OnSpawnWatcher(v, n)
    case Cancel => OnCancel(v)
    case StopCall => OnStop(v)
    case Poll(n, capped) => OnPoll(v, n, capped)
    case CapStop(n) => OnCapStop(v, n)
    case Send(n, outcome) => OnSend(v, n, outcome)
    case Reset(n) => OnReset(v, n)
    case Answer(k) => OnAnswer(v, k)
    case Emit(n) => v.(recs := v.recs[n := v.recs[n].(watcher := Ended)])
    case CloseGate => v.(open := false)
  }

  // ---- what holds in every interleaving -----------------------------------------------------------

  predicate Holds(slot: Slot, n: nat) {
    slot == Recording(n) || slot == Transcribing(n)
  }

  /** What a recording's own fields say of each other and of the slot. */
  predicate RecFits(slot: Slot, n: nat, r: Rec) {
    && r.stopped + r.cancelled == (if slot == Recording(n) then 0 else 1)
    && r.tasks == (if r.stopped == 1 && !r.task.Refused? then 1 else 0)
    && (r.task.NoTask? <==> r.stopped == 0)
    && (r.task.Working? || r.task.Sent? || r.task.Refused? <==> slot == Transcribing(n))
    && (r.channel.Some? <==> r.task.Sent? || r.task.Finished?)
    && (slot == Recording(n) ==> !r.watcher.Awaiting? && !r.watcher.Ended?)
  }

  predicate StopFits(recs: seq<Rec>, s: Stop) {
    match s
    case Waits(n) => n < |recs| && !recs[n].task.NoTask?
    case Replied(None, reply) => reply.NotRecording?
    case Replied(Some(n), reply) =>
      n < |recs|
      && match reply
         case Heard(outcome) => recs[n].channel == Some(outcome)
         case NotRecording => false
         case _ => recs[n].task.Refused?
  }

  ghost predicate VoiceInv(v: Voice) {
    RecsFit(v.slot, v.recs)
    && StopsFit(v.recs, v.stops)
    && (v.open ==> forall n :: 0 <= n < |v.recs| ==> !v.recs[n].task.Refused? && !v.recs[n].watcher.Turned?)
  }

  /** A recording the slot neither held nor holds does not care what the slot holds. */
  lemma OtherRec(slot: Slot, next: Slot, n: nat, r: Rec)
    requires RecFits(slot, n, r) && !Holds(slot, n) && !Holds(next, n)
    ensures RecFits(next, n, r)
  {
  }

  lemma CancelledRec(n: nat, r: Rec)
    requires RecFits(Recording(n), n, r)
    ensures RecFits(Idle, n, r.(cancelled := r.cancelled + 1))
  {
  }

  lemma StoppedRec(n: nat, r: Rec, open: bool)
    requires RecFits(Recording(n), n, r)
    ensures RecFits(Transcribing(n), n, StopRec(r, open))
  {
  }

  /** A recording never loses its result or its task. */
  predicate Grows(r: Rec, next: Rec) {
    (r.channel.Some? ==> next.channel == r.channel)
    && (!r.task.NoTask? ==> !next.task.NoTask?)
    && (r.task.Refused? ==> next.task.Refused?)
  }

  ghost predicate AllGrow(recs: seq<Rec>, next: seq<Rec>) {
    |recs| <= |next| && forall n :: 0 <= n < |recs| ==> Grows(recs[n], next[n])
  }

  ghost predicate StopsFit(recs: seq<Rec>, stops: seq<Stop>) {
    forall k :: 0 <= k < |stops| ==> StopFits(recs, stops[k])
  }

  lemma StopsStay(recs: seq<Rec>, next: seq<Rec>, stops: seq<Stop>)
    requires StopsFit(recs, stops) && AllGrow(recs, next)
    ensures StopsFit(next, stops)
  {
    forall k | 0 <= k < |stops| ensures StopFits(next, stops[k]) {
      assert StopFits(recs, stops[k]);
    }
  }

  ghost predicate RecsFit(slot: Slot, recs: seq<Rec>) {
    forall n :: 0 <= n < |recs| ==> RecFits(slot, n, recs[n])
  }

  predicate OnlyAbout(slot: Slot, m: nat) {
    slot.Idle? || Holds(slot, m)
  }

  /** Only recording `m` changes, and only its claim on the slot. */
  lemma OneRecFits(slot: Slot, next: Slot, recs: seq<Rec>, m: nat, r: Rec)
    requires RecsFit(slot, recs) && m < |recs| && RecFits(next, m, r)
    requires slot == next || (OnlyAbout(slot, m) && OnlyAbout(next, m))
    ensures RecsFit(next, recs[m := r])
  {
    var all := recs[m := r];
    forall n | 0 <= n < |all| ensures RecFits(next, n, all[n]) {
      assert RecFits(slot, n, recs[n]);
      if n != m && slot != next {
        OtherRec(slot, next, n, recs[n]);
      }
    }
  }

  lemma StartKeepsInv(v: Voice, granted: bool)
    requires VoiceInv(v)
    ensures VoiceInv(OnStart(v, granted))
  {
    if v.slot.Idle? && granted {
      var w := OnStart(v, granted);
      forall n | 0 <= n < |w.recs| ensures RecFits(w.slot, n, w.recs[n]) {
        if n < |v.recs| {
          OtherRec(v.slot, w.slot, n, v.recs[n]);
        }
      }
      StopsStay(v.recs, w.recs, v.stops);
    }
  }

  lemma CancelKeepsInv(v: Voice)
    requires VoiceInv(v)
    ensures VoiceInv(OnCancel(v))
  {
    if v.slot.Recording? {
      var n := v.slot.capture;
      var r := v.recs[n].(cancelled := v.recs[n].cancelled + 1);
      assert RecFits(v.slot, n, v.recs[n]);
      CancelledRec(n, v.recs[n]);
      OneRecFits(v.slot, Idle, v.recs, n, r);
      StopsStay(v.recs, v.recs[n := r], v.stops);
    }
  }

  lemma StopKeepsInv(v: Voice)
    requires VoiceInv(v)
    ensures VoiceInv(OnStop(v))
  {
    if v.slot.Recording? {
      var n := v.slot.capture;
      assert RecFits(v.slot, n, v.recs[n]);
      StoppedRec(n, v.recs[n], v.open);
      OneRecFits(v.slot, Transcribing(n), v.recs, n, StopRec(v.recs[n], v.open));
      StopsStay(v.recs, v.recs[n := StopRec(v.recs[n], v.open)], v.stops);
    } else if v.slot.Transcribing? {
      assert RecFits(v.slot, v.slot.recording, v.recs[v.slot.recording]);
    }
  }

  /** A watcher's own state concerns nothing else, except that it may not end while its recording runs. */
  lemma WatchedKeepsInv(v: Voice, n: nat, watcher: Watcher)
    requires VoiceInv(v) && n < |v.recs|
    requires v.slot == Recording(n) ==> !watcher.Awaiting? && !watcher.Ended?
    requires v.open ==> !watcher.Turned?
    ensures VoiceInv(v.(recs := v.recs[n := v.recs[n].(watcher := watcher)]))
  {
    var r := v.recs[n].(watcher := watcher);
    assert RecFits(v.slot, n, v.recs[n]);
    OneRecFits(v.slot, v.slot, v.recs, n, r);
    StopsStay(v.recs, v.recs[n := r], v.stops);
  }

  /** The cap watcher's stop: what it stops is never awaited by a watcher of a running recording. */
  lemma CapStopKeepsInv(v: Voice, n: nat)
    requires VoiceInv(v) && Possible(v, CapStop(n))
    ensures VoiceInv(OnCapStop(v, n))
  {
    var marked := Awaiting(|v.stops|);
    if v.slot == Recording(n) {
      StopKeepsInv(v);
      var w := OnStop(v);
      WatchedKeepsInv(w, n, marked);
      assert w.recs[n := w.recs[n].(watcher := marked)]
          == v.recs[n := StopRec(v.recs[n].(watcher := marked), v.open)];
    } else {
      WatchedKeepsInv(v, n, marked);
      StopKeepsInv(v.(recs := v.recs[n := v.recs[n].(watcher := marked)]));
    }
  }

  lemma SendKeepsInv(v: Voice, n: nat, outcome: StopOutcome)
    requires VoiceInv(v) && Possible(v, Send(n, outcome))
    ensures VoiceInv(OnSend(v, n, outcome))
  {
    var r := v.recs[n].(task := Sent, channel := Some(outcome));
    assert RecFits(v.slot, n, v.recs[n]);
    OneRecFits(v.slot, v.slot, v.recs, n, r);
    StopsStay(v.recs, v.recs[n := r], v.stops);
  }

  lemma ResetKeepsInv(v: Voice, n: nat)
    requires VoiceInv(v) && Possible(v, Reset(n))
    ensures VoiceInv(OnReset(v, n))
  {
    var r := v.recs[n].(task := Finished);
    assert RecFits(v.slot, n, v.recs[n]);
    OneRecFits(v.slot, Idle, v.recs, n, r);
    StopsStay(v.recs, v.recs[n := r], v.stops);
  }

  lemma StepKeepsInv(v: Voice, step: Step)
    requires VoiceInv(v) && Possible(v, step)
    ensures VoiceInv(Apply(v, step))
  {
    match step
    case Start(granted) => StartKeepsInv(v, granted);
    case Cancel => CancelKeepsInv(v);
    case CloseGate =>
    case SpawnWatcher(n) => WatchedKeepsInv(v, n, if v.open then Polling else Turned);
    case Poll(n, _) =>
      WatchedKeepsInv(v, n, if v.slot.Recording? then Capped else Ended);
    case Emit(n) =>
      assert RecFits(v.slot, n, v.recs[n]);
      WatchedKeepsInv(v, n, Ended);
    case StopCall => StopKeepsInv(v);
    case CapStop(n) => CapStopKeepsInv(v, n);
    case Send(n, outcome) => SendKeepsInv(v, n, outcome);
    case Reset(n) => ResetKeepsInv(v, n);
    case Answer(k) => assert StopFits(v.recs, v.stops[k]);
  }

  ghost predicate PossibleRun(v: Voice, steps: seq<Step>)
    decreases |steps|
  {
    steps == [] || (Possible(v, steps[0]) && PossibleRun(Apply(v, steps[0]), steps[1..]))
  }

  ghost function Run(v: Voice, steps: seq<Step>): Voice
    requires PossibleRun(v, steps)
    decreases |steps|
  {
    if steps == [] then v else Run(Apply(v, steps[0]), steps[1..])
  }

  lemma {:induction false} RunKeepsInv(v: Voice, steps: seq<Step>)
    requires VoiceInv(v) && PossibleRun(v, steps)
    ensures VoiceInv(Run(v, steps))
    decreases |steps|
  {
    if steps != [] {
      StepKeepsInv(v, steps[0]);
      RunKeepsInv(Apply(v, steps[0]), steps[1..]);
    }
  }

  // ---- the main results ---------------------------------------------------------------------------

  /** Every started capture is released exactly once, unless it is the one still recording. */
  lemma ReleasedOnce(steps: seq<Step>, n: nat)
    requires PossibleRun(SILENT, steps) && n < |Run(SILENT, steps).recs|
    ensures var v := Run(SILENT, steps);
            v.recs[n].stopped + v.recs[n].cancelled == if v.slot == Recording(n) then 0 else 1
  {
    RunKeepsInv(SILENT, steps);
    assert RecFits(Run(SILENT, steps).slot, n, Run(SILENT, steps).recs[n]);
  }

  /** A stopped capture has exactly one task, a cancelled one none; a refusing gate is the only exception. */
  lemma OneTaskPerStop(steps: seq<Step>, n: nat)
    requires PossibleRun(SILENT, steps) && n < |Run(SILENT, steps).recs|
    ensures var v := Run(SILENT, steps);
            (v.recs[n].stopped == 1 && (v.open || !v.recs[n].task.Refused?) ==> v.recs[n].tasks == 1)
            && (v.recs[n].stopped == 0 ==> v.recs[n].tasks == 0)
            && v.recs[n].tasks <= v.recs[n].stopped
  {
    RunKeepsInv(SILENT, steps);
    assert RecFits(Run(SILENT, steps).slot, n, Run(SILENT, steps).recs[n]);
  }

  /** Transcribing ends only with the last write of that recording's own task, and leaves the slot idle. */
  lemma OnlyOwnTaskEnds(v: Voice, n: nat, step: Step)
    requires VoiceInv(v) && v.slot == Transcribing(n) && Possible(v, step)
    ensures Apply(v, step).slot == if step == Reset(n) then Idle else v.slot
  {
    if step.Reset? {
      assert RecFits(v.slot, step.n, v.recs[step.n]);
    }
  }

  /** The unguarded last write of a task never overwrites a newer recording. */
  lemma ResetFindsItsOwn(v: Voice, n: nat)
    requires VoiceInv(v) && Possible(v, Reset(n))
    ensures v.slot == Transcribing(n)
  {
    assert RecFits(v.slot, n, v.recs[n]);
  }

  /**
   * Whoever stops or joins a recording is answered with its one result, unless a closing gate refused its
   * task; then the first one is told so, and the others that the pipeline closed.
   */
  lemma EveryStopHearsTheResult(steps: seq<Step>, k: nat)
    requires PossibleRun(SILENT, steps) && k < |Run(SILENT, steps).stops|
    requires Run(SILENT, steps).stops[k].Replied? && Run(SILENT, steps).stops[k].of.Some?
    ensures var v := Run(SILENT, steps);
            var n := v.stops[k].of.value;
            n < |v.recs|
            && if v.recs[n].task.Refused? then !v.open && (v.stops[k].reply.NotSpawned? || v.stops[k].reply.Closed?)
               else v.recs[n].channel.Some? && v.stops[k].reply == Heard(v.recs[n].channel.value)
  {
    RunKeepsInv(SILENT, steps);
    var v := Run(SILENT, steps);
    assert StopFits(v.recs, v.stops[k]);
    assert RecFits(v.slot, v.stops[k].of.value, v.recs[v.stops[k].of.value]);
  }

  /** No stop waits in vain: its recording's task, or the closed channel, can still answer it. */
  lemma WaitingStopIsAnswered(v: Voice, k: nat)
    requires VoiceInv(v) && k < |v.stops| && v.stops[k].Waits?
    ensures exists steps :: |steps| <= 2 && PossibleRun(v, steps)
                            && k < |Run(v, steps).stops| && Run(v, steps).stops[k].Replied?
  {
    var n := v.stops[k].recording;
    assert StopFits(v.recs, v.stops[k]);
    assert RecFits(v.slot, n, v.recs[n]);
    if Settled(v, n) {
      RunOne(v, Answer(k), []);
      assert Run(v, [Answer(k)] + []).stops[k].Replied?;
    } else {
      var outcome := Text("");
      var sent := Apply(v, Send(n, outcome));
      RunOne(sent, Answer(k), []);
      RunOne(v, Send(n, outcome), [Answer(k)] + []);
      assert Run(v, [Send(n, outcome)] + ([Answer(k)] + [])).stops[k].Replied?;
    }
  }

  /** Results and answers are final. */
  ghost predicate Extends(v: Voice, w: Voice) {
    |v.recs| <= |w.recs| && |v.stops| <= |w.stops|
    && (forall n :: 0 <= n < |v.recs| && v.recs[n].channel.Some? ==> w.recs[n].channel == v.recs[n].channel)
    && (forall k :: 0 <= k < |v.stops| && v.stops[k].Replied? ==> w.stops[k] == v.stops[k])
    && (forall k :: 0 <= k < |v.stops| && v.stops[k].Waits? ==>
          w.stops[k] == v.stops[k] || (w.stops[k].Replied? && w.stops[k].of == Some(v.stops[k].recording)))
  }

  lemma StopExtends(v: Voice, step: Step)
    requires VoiceInv(v) && Possible(v, step) && (step.StopCall? || step.CapStop?)
    ensures Extends(v, Apply(v, step))
  {
    if step.CapStop? {
      var n := step.n;
      var marked := v.(recs := v.recs[n := v.recs[n].(watcher := Awaiting(|v.stops|))]);
      assert Extends(v, marked) && Extends(marked, OnStop(marked));
    }
  }

  lemma StepExtends(v: Voice, step: Step)
    requires VoiceInv(v) && Possible(v, step)
    ensures Extends(v, Apply(v, step))
  {
    if step.StopCall? || step.CapStop? {
      StopExtends(v, step);
    } else if step.Send? {
      assert RecFits(v.slot, step.n, v.recs[step.n]);
    }
  }

  lemma {:induction false} RunExtends(v: Voice, steps: seq<Step>)
    requires VoiceInv(v) && PossibleRun(v, steps)
    ensures Extends(v, Run(v, steps))
    decreases |steps|
  {
    if steps != [] {
      StepExtends(v, steps[0]);
      StepKeepsInv(v, steps[0]);
      RunExtends(Apply(v, steps[0]), steps[1..]);
    }
  }

  /** Stops that meet at one recording, at whatever times, are given the same result. */
  lemma CoalescedStopsAgree(steps: seq<Step>, more: seq<Step>, k: nat, l: nat, n: nat)
    requires PossibleRun(SILENT, steps) && PossibleRun(Run(SILENT, steps), more)
    requires k < |Run(SILENT, steps).stops| && l < |Run(Run(SILENT, steps), more).stops|
    requires Run(SILENT, steps).stops[k].Replied? && Run(SILENT, steps).stops[k].reply.Heard?
    requires var s := Run(Run(SILENT, steps), more).stops[l]; s.Replied? && s.reply.Heard?
    requires Run(SILENT, steps).stops[k].of == Run(Run(SILENT, steps), more).stops[l].of == Some(n)
    ensures Run(SILENT, steps).stops[k].reply == Run(Run(SILENT, steps), more).stops[l].reply
  {
    RunKeepsInv(SILENT, steps);
    var v := Run(SILENT, steps);
    RunKeepsInv(v, more);
    RunExtends(v, more);
    assert StopFits(v.recs, v.stops[k]) && StopFits(Run(v, more).recs, Run(v, more).stops[l]);
  }

  /** While a recording runs and the gate is open, its watcher is there and can stop it at the cap. */
  lemma CapCanFire(steps: seq<Step>, n: nat)
    requires PossibleRun(SILENT, steps) && Run(SILENT, steps).slot == Recording(n) && Run(SILENT, steps).open
    ensures var v := Run(SILENT, steps);
            (v.recs[n].watcher.Unspawned? || v.recs[n].watcher.Polling? || v.recs[n].watcher.Capped?)
            && exists more :: |more| <= 3 && PossibleRun(v, more) && Run(v, more).slot == Transcribing(n)
  {
    RunKeepsInv(SILENT, steps);
    var v := Run(SILENT, steps);
    assert RecFits(v.slot, n, v.recs[n]);
    var more := CapRun(v, n);
  }

  lemma CapRun(v: Voice, n: nat) returns (more: seq<Step>)
    requires v.slot == Recording(n) && v.open
    requires v.recs[n].watcher.Unspawned? || v.recs[n].watcher.Polling? || v.recs[n].watcher.Capped?
    ensures |more| <= 3 && PossibleRun(v, more) && Run(v, more).slot == Transcribing(n)
  {
    if v.recs[n].watcher.Unspawned? {
      PolledStops(Apply(v, SpawnWatcher(n)), n);
      RunOne(v, SpawnWatcher(n), [Poll(n, true), CapStop(n)]);
      more := [SpawnWatcher(n)] + [Poll(n, true), CapStop(n)];
    } else if v.recs[n].watcher.Polling? {
      PolledStops(v, n);
      more := [Poll(n, true), CapStop(n)];
    } else {
      RunOne(v, CapStop(n), []);
      more := [CapStop(n)] + [];
    }
  }

  lemma RunOne(v: Voice, first: Step, rest: seq<Step>)
    requires Possible(v, first) && PossibleRun(Apply(v, first), rest)
    ensures PossibleRun(v, [first] + rest) && Run(v, [first] + rest) == Run(Apply(v, first), rest)
  {
    assert ([first] + rest)[1..] == rest;
  }

  lemma PolledStops(v: Voice, n: nat)
    requires v.slot == Recording(n) && v.recs[n].watcher.Polling?
    ensures PossibleRun(v, [Poll(n, true), CapStop(n)])
            && Run(v, [Poll(n, true), CapStop(n)]).slot == Transcribing(n)
  {
    var seen := Apply(v, Poll(n, true));
    RunOne(seen, CapStop(n), []);
    RunOne(v, Poll(n, true), [CapStop(n)]);
    assert [Poll(n, true)] + [CapStop(n)] == [Poll(n, true), CapStop(n)] && [CapStop(n)] + [] == [CapStop(n)];
  }

  // ---- what a closing gate and a late watcher do --------------------------------------------------

  /** A task that a closing gate refused leaves the slot transcribing for good. */
  lemma {:induction false} RefusedForever(v: Voice, n: nat, steps: seq<Step>)
    requires VoiceInv(v) && v.slot == Transcribing(n) && v.recs[n].task.Refused? && PossibleRun(v, steps)
    ensures Run(v, steps).slot == Transcribing(n)
    decreases |steps|
  {
    if steps != [] {
      OnlyOwnTaskEnds(v, n, steps[0]);
      StepKeepsInv(v, steps[0]);
      RefusedForever(Apply(v, steps[0]), n, steps[1..]);
    }
  }

  /** Transcribing can end if and only if the recording's task was taken. */
  lemma TranscribingEndsIff(v: Voice, n: nat)
    requires VoiceInv(v) && v.slot == Transcribing(n)
    ensures !v.recs[n].task.Refused? <==> exists steps :: PossibleRun(v, steps) && Run(v, steps).slot.Idle?
  {
    assert RecFits(v.slot, n, v.recs[n]);
    if v.recs[n].task.Refused? {
      forall steps | PossibleRun(v, steps) ensures Run(v, steps).slot == Transcribing(n) {
        RefusedForever(v, n, steps);
      }
    } else if v.recs[n].task.Sent? {
      RunOne(v, Reset(n), []);
      assert Run(v, [Reset(n)] + []).slot.Idle?;
    } else {
      var outcome := Text("");
      RunOne(Apply(v, Send(n, outcome)), Reset(n), []);
      RunOne(v, Send(n, outcome), [Reset(n)] + []);
      assert Run(v, [Send(n, outcome)] + ([Reset(n)] + [])).slot.Idle?;
    }
  }

  /** The watcher's stop stops no recording but `m`. */
  ghost predicate StopsOnly(v: Voice, n: nat, m: nat)
    requires Possible(v, CapStop(n))
  {
    forall k :: 0 <= k < |v.recs| && k != m ==> Apply(v, CapStop(n)).recs[k].stopped == v.recs[k].stopped
  }

  /** A watcher that saw the cap stops no recording but `m` if and only if no other one is in the slot. */
  lemma StopsOnlyIff(v: Voice, n: nat, m: nat)
    requires VoiceInv(v) && Possible(v, CapStop(n))
    ensures StopsOnly(v, n, m) <==> (v.slot.Recording? ==> v.slot.capture == m)
  {
    var w := Apply(v, CapStop(n));
    if v.slot.Recording? {
      assert w.recs[v.slot.capture].stopped == v.recs[v.slot.capture].stopped + 1;
      assert forall k :: 0 <= k < |v.recs| && k != v.slot.capture ==> w.recs[k].stopped == v.recs[k].stopped;
    } else {
      assert forall k :: 0 <= k < |v.recs| ==> w.recs[k].stopped == v.recs[k].stopped;
    }
  }

  /**
   * Let a watcher see the cap of recording `m`, and let any steps come before it gets the mutex again.
   * If something records then, it stops `m` and nothing else exactly when `m` was neither stopped nor
   * cancelled in between.
   */
  lemma CapStopsWhatItSaw(before: seq<Step>, n: nat, more: seq<Step>)
    requires PossibleRun(SILENT, before) && Run(SILENT, before).slot.Recording?
    requires Possible(Run(SILENT, before), Poll(n, true))
    requires PossibleRun(Apply(Run(SILENT, before), Poll(n, true)), more)
    requires Possible(Run(Apply(Run(SILENT, before), Poll(n, true)), more), CapStop(n))
    requires Run(Apply(Run(SILENT, before), Poll(n, true)), more).slot.Recording?
    ensures var m := Run(SILENT, before).slot.capture;
            var v := Run(Apply(Run(SILENT, before), Poll(n, true)), more);
            m < |v.recs|
            && Run(SILENT, before).recs[m].stopped + Run(SILENT, before).recs[m].cancelled == 0
            && (StopsOnly(v, n, m) <==> v.recs[m].stopped + v.recs[m].cancelled == 0)
  {
    RunKeepsInv(SILENT, before);
    var seen := Run(SILENT, before);
    var m := seen.slot.capture;
    assert RecFits(seen.slot, m, seen.recs[m]);
    StepKeepsInv(seen, Poll(n, true));
    var polled := Apply(seen, Poll(n, true));
    RunKeepsInv(polled, more);
    RunExtends(polled, more);
    var v := Run(polled, more);
    assert RecFits(v.slot, m, v.recs[m]);
    StopsOnlyIff(v, n, m);
  }

  /**
   * A watcher that saw the cap stops whatever records when it gets the mutex again: after a cancel and
   * a new start in between, that is the next recording, whose own cap was never reached.
   */
  lemma StaleCapStopsTheNext()
    ensures var run := [Start(true), SpawnWatcher(0), Poll(0, true), Cancel, Start(true), CapStop(0)];
            PossibleRun(SILENT, run)
            && Run(SILENT, run).slot == Transcribing(1)
            && Run(SILENT, run).recs[0].cancelled == 1
  {
    var v1 := Apply(SILENT, Start(true));
    assert v1.slot == Recording(0) && v1.recs == [NEW_REC] && v1.open;
    var v2 := Apply(v1, SpawnWatcher(0));
    assert v2.slot == Recording(0) && |v2.recs| == 1 && v2.recs[0].watcher.Polling?;
    var v3 := Apply(v2, Poll(0, true));
    var v4 := Apply(v3, Cancel);
    assert v4.slot.Idle? && |v4.recs| == 1 && v4.recs[0].watcher.Capped? && v4.recs[0].cancelled == 1;
    var v5 := Apply(v4, Start(true));
    assert v5.slot == Recording(1) && v5.recs[0] == v4.recs[0];
    RunOne(v5, CapStop(0), []);
    RunOne(v4, Start(true), [CapStop(0)] + []);
    RunOne(v3, Cancel, [Start(true)] + ([CapStop(0)] + []));
    RunOne(v2, Poll(0, true), [Cancel] + ([Start(true)] + ([CapStop(0)] + [])));
    RunOne(v1, SpawnWatcher(0), [Poll(0, true)] + ([Cancel] + ([Start(true)] + ([CapStop(0)] + []))));
    RunOne(SILENT, Start(true), [SpawnWatcher(0)] + ([Poll(0, true)] + ([Cancel] + ([Start(true)] + ([CapStop(0)] + [])))));
    assert [Start(true)] + ([SpawnWatcher(0)] + ([Poll(0, true)] + ([Cancel] + ([Start(true)] + ([CapStop(0)] + [])))))
        == [Start(true), SpawnWatcher(0), Poll(0, true), Cancel, Start(true), CapStop(0)];
  }

  /** Its task refused by a closing gate: a run after which the slot transcribes for good (`RefusedForever`). */
  lemma RefusedTaskIsReached()
    ensures PossibleRun(SILENT, [Start(true), CloseGate, StopCall])
    ensures var v := Run(SILENT, [Start(true), CloseGate, StopCall]);
            VoiceInv(v) && v.slot == Transcribing(0) && v.recs[0].task.Refused?
  {
    var v1 := Apply(SILENT, Start(true));
    assert v1.slot == Recording(0) && v1.recs == [NEW_REC];
    var v2 := Apply(v1, CloseGate);
    var v3 := Apply(v2, StopCall);
    assert v3.slot == Transcribing(0) && v3.recs[0].task.Refused?;
    RunOne(v2, StopCall, []);
    RunOne(v1, CloseGate, [StopCall] + []);
    RunOne(SILENT, Start(true), [CloseGate] + ([StopCall] + []));
    assert [Start(true)] + ([CloseGate] + ([StopCall] + [])) == [Start(true), CloseGate, StopCall];
    RunKeepsInv(SILENT, [Start(true), CloseGate, StopCall]);
  }

  lemma RunSnoc(v: Voice, steps: seq<Step>, last: Step)
    requires PossibleRun(v, steps)
    ensures PossibleRun(v, steps + [last]) <==> Possible(Run(v, steps), last)
    ensures PossibleRun(v, steps + [last]) ==> Run(v, steps + [last]) == Apply(Run(v, steps), last)
    decreases |steps|
  {
    if steps == [] {
      assert [] + [last] == [last] && [last][1..] == [];
    } else {
      assert (steps + [last])[1..] == steps[1..] + [last];
      RunSnoc(Apply(v, steps[0]), steps[1..], last);
    }
  }

  lemma RunPrefix(v: Voice, steps: seq<Step>, i: nat)
    requires PossibleRun(v, steps) && i <= |steps|
    ensures PossibleRun(v, steps[..i])
    decreases |steps|
  {
    if i > 0 {
      assert steps[..i][1..] == steps[1..][..i - 1];
      RunPrefix(Apply(v, steps[0]), steps[1..], i - 1);
    }
  }

  // ---- the state as the process holds it ----------------------------------------------------------

  /** The voice state and what its tasks, channels and watchers are in; changed stretch by stretch. */
  class VoiceState {
    var slot: Slot
    var recs: seq<Rec>
    var stops: seq<Stop>
    var open: bool

    function View(): State
      reads this
    {
      State(slot, recs, stops, open)
    }

    /** Slot, captures, tasks, channels, watchers and stops fit together. */
    ghost predicate Valid()
      reads this
    {
      SlotFits(View()) && VoiceInv(View())
    }

    constructor ()
      ensures Valid() && View() == SILENT
    {
      slot, recs, stops, open := Idle, [], [], true;
    }

    method StartVoiceRecording(granted: bool)
      requires Valid()
      modifies this
      ensures Valid() && View() == OnStart(old(View()), granted)
    {
      StartKeepsInv(View(), granted);
      if slot != Idle {
        return;
      }
      if granted {
        slot := Recording(|recs|);
        recs := recs + [NEW_REC];
      }
    }

    /** `spawn_cap_watcher`, after the mutex was given up. */
    method SpawnCapWatcher(n: nat)
      requires Valid() && Possible(View(), SpawnWatcher(n))
      modifies this`recs
      ensures Valid() && View() == Apply(old(View()), SpawnWatcher(n))
    {
      StepKeepsInv(View(), SpawnWatcher(n));
      recs := recs[n := recs[n].(watcher := if open then Polling else Turned)];
    }

    /** `cancel_recording`: also for the close. */
    method CancelRecording()
      requires Valid()
      modifies this`slot, this`recs
      ensures Valid() && View() == OnCancel(old(View()))
    {
      CancelKeepsInv(View());
      CaptureDropped();
    }

    /** `cancel_recording` inside the mutex. */
    method CaptureDropped()
      requires SlotFits(View())
      modifies this`slot, this`recs
      ensures View() == OnCancel(old(View()))
    {
      if slot.Recording? {
        var n := slot.capture;
        slot := Idle;
        recs := recs[n := recs[n].(cancelled := recs[n].cancelled + 1)];
      }
    }

    /** `do_stop` up to its wait. */
    method DoStop()
      requires Valid()
      modifies this`slot, this`recs, this`stops
      ensures Valid() && View() == OnStop(old(View()))
    {
      StopKeepsInv(View());
      StopTaken();
    }

    /** `do_stop` inside the mutex: the slot is taken out and put back. */
    method StopTaken()
      requires SlotFits(View())
      modifies this`slot, this`recs, this`stops
      ensures View() == OnStop(old(View()))
    {
      var taken := slot;
      slot := Idle;
      match taken
      case Idle => stops := stops + [Replied(None, NotRecording)];
      case Recording(n) =>
        recs := recs[n := recs[n].(stopped := recs[n].stopped + 1)];
        slot := Transcribing(n);
        if open {
          recs := recs[n := recs[n].(task := Working, tasks := recs[n].tasks + 1)];
          stops := stops + [Waits(n)];
        } else {
          recs := recs[n := recs[n].(task := Refused)];
          stops := stops + [Replied(Some(n), NotSpawned)];
        }
      case Transcribing(n) =>
        slot := Transcribing(n);
        stops := stops + [Waits(n)];
    }

    /** One round of the watcher's loop; returns whether the loop goes on. */
    method PollCap(n: nat, hasCapped: bool) returns (again: bool)
      requires Valid() && Possible(View(), Poll(n, hasCapped))
      modifies this`recs
      ensures Valid() && View() == Apply(old(View()), Poll(n, hasCapped))
      ensures again <==> slot.Recording? && !hasCapped
    {
      StepKeepsInv(View(), Poll(n, hasCapped));
      if slot.Recording? {
        if !hasCapped {
          return true;
        }
        recs := recs[n := recs[n].(watcher := Capped)];
      } else {
        recs := recs[n := recs[n].(watcher := Ended)];
      }
      return false;
    }

    method StopAtCap(n: nat)
      requires Valid() && Possible(View(), CapStop(n))
      modifies this
      ensures Valid() && View() == Apply(old(View()), CapStop(n))
    {
      CapStopKeepsInv(View(), n);
      recs := recs[n := recs[n].(watcher := Awaiting(|stops|))];
      StopTaken();
    }

    /** The transcription task tells its result to all who wait. */
    method SendResult(n: nat, outcome: StopOutcome)
      requires Valid() && Possible(View(), Send(n, outcome))
      modifies this`recs
      ensures Valid() && View() == Apply(old(View()), Send(n, outcome))
    {
      SendKeepsInv(View(), n, outcome);
      recs := recs[n := recs[n].(task := Sent, channel := Some(outcome))];
    }

    method ResetSlot(n: nat)
      requires Valid() && Possible(View(), Reset(n))
      modifies this`slot, this`recs
      ensures Valid() && View() == Apply(old(View()), Reset(n))
    {
      ResetKeepsInv(View(), n);
      slot := Idle;
      recs := recs[n := recs[n].(task := Finished)];
    }

    /** The wait of a stop is over. */
    method AnswerStop(k: nat) returns (reply: Reply)
      requires Valid() && Possible(View(), Answer(k))
      modifies this`stops
      ensures Valid() && View() == Apply(old(View()), Answer(k))
      ensures stops[k] == Replied(Some(old(stops[k].recording)), reply)
    {
      StepKeepsInv(View(), Answer(k));
      var n := stops[k].recording;
      reply := if recs[n].channel.Some? then Heard(recs[n].channel.value) else Closed;
      stops := stops[k := Replied(Some(n), reply)];
    }

    /** The watcher sent its event and ends. */
    method EmitCapped(n: nat)
      requires Valid() && Possible(View(), Emit(n))
      modifies this`recs
      ensures Valid() && View() == Apply(old(View()), Emit(n))
    {
      StepKeepsInv(View(), Emit(n));
      recs := recs[n := recs[n].(watcher := Ended)];
    }

    method Perform(step: Step)
      requires Valid() && Possible(View(), step)
      modifies this
      ensures Valid() && View() == Apply(old(View()), step)
    {
      match step
      case Start(granted) => StartVoiceRecording(granted);
      case SpawnWatcher(n) => SpawnCapWatcher(n);
      case Cancel => CancelRecording();
      case StopCall => DoStop();
      case Poll(n, capped) => var again := PollCap(n, capped);
      case CapStop(n) => StopAtCap(n);
      case Send(n, outcome) => SendResult(n, outcome);
      case Reset(n) => ResetSlot(n);
      case Answer(k) => var reply := AnswerStop(k);
      case Emit(n) => EmitCapped(n);
      case CloseGate => open := false;
    }

    /** Any interleaving the threads can produce runs to the state the model gives, and keeps `Valid`. */
    method Play(steps: seq<Step>)
      requires Valid() && PossibleRun(View(), steps)
      modifies this
      ensures Valid() && View() == Run(old(View()), steps)
    {
      ghost var start := View();
      for i := 0 to |steps|
        invariant PossibleRun(start, steps[..i]) && Valid() && View() == Run(start, steps[..i])
      {
        assert steps[..i + 1] == steps[..i] + [steps[i]];
        RunPrefix(start, steps, i + 1);
        RunSnoc(start, steps[..i], steps[i]);
        Perform(steps[i]);
      }
      assert steps[..|steps|] == steps;
    }
  }
}
