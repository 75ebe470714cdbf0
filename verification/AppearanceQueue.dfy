/**
 * The shown appearance against the vault: writes one after the other, reads overlapping them and each
 * other, and a counter that tells a read whether something newer was shown meanwhile. A step is what
 * runs between two awaits, or what the vault does with a call.
 */
module AppearanceQueue {
  import opened Base
  import opened AppearanceSchema

  datatype Scheme = Light | Dark | System

  datatype Op =
    | SetOp(changes: Patch)
    | ResetOp
    | ImportOp(appearance: Appearance, scheme: Scheme)

  /**
   * The operation at work. A call of the vault is `committed` once the vault has done it; the code goes
   * on only in a later step. An import writes the scheme first and, if the second write fails, takes it back.
   */
  datatype Flight =
    | Resting
    | Writing(op: Op, next: Appearance, previous: Scheme, committed: bool)
    | WritingScheme(op: Op, previous: Scheme, committed: bool)
    | Undoing(op: Op, previous: Scheme, committed: bool)

  /** A running read: the counter when it began, and what the vault answered. */
  datatype Read = Read(load: bool, at: nat, captured: Option<Stored>)

  datatype State = State(
    stored: Stored,
    storedScheme: Scheme,
    shown: Appearance,
    scheme: Scheme,
    generation: nat,
    queue: seq<Op>,
    flight: Flight,
    pending: seq<Read>,
    schemeReads: seq<Option<Scheme>>,      // running reads of the colour scheme, with what the vault answered
    schemeSets: seq<Scheme>)               // schemes the settings wrote, the code yet to go on

  datatype Step =
    | CallSet(patch: RawPatch)
    | CallReset
    | CallImport(appearance: Appearance, colorScheme: Scheme)   // of a file that passed the whole check
    | Begin
    | Commit
    | Continue
    | WriteFails
    | CallLoad
    | CallRefresh
    | Serve(i: nat)
    | Return(i: nat)
    | ReadFails(i: nat)
    | Remote(stored: Stored)
    | Clear
    | CallSchemeLoad
    | CallSchemeRefresh
    | ServeScheme(i: nat)
    | ReturnScheme(i: nat)
    | SchemeReadFails(i: nat)
    | SettingsWrite(chosen: Scheme)        // the vault performs a scheme write of the settings, outside the queue
    | SettingsShow(i: nat)

  predicate InFlight(s: State) {
    !s.flight.Resting? && !s.flight.committed
  }

  predicate Possible(s: State, step: Step) {
    match step
    case Begin => s.flight.Resting? && s.queue != []
    case Commit => InFlight(s)
    case WriteFails => InFlight(s)
    case Continue => !s.flight.Resting? && s.flight.committed
    case Serve(i) => i < |s.pending| && s.pending[i].captured.None?
    case Return(i) => i < |s.pending| && s.pending[i].captured.Some?
    case ReadFails(i) => i < |s.pending| && s.pending[i].captured.None?
    case CallImport(a, _) => IsCanonical(a)
    case ServeScheme(i) => i < |s.schemeReads| && s.schemeReads[i].None?
    case ReturnScheme(i) => i < |s.schemeReads| && s.schemeReads[i].Some?
    case SchemeReadFails(i) => i < |s.schemeReads| && s.schemeReads[i].None?
    case SettingsShow(i) => i < |s.schemeSets|
    case _ => true
  }

  // ---- writes -------------------------------------------------------------------------------------

  /** The appearance an operation writes when `shown` is on screen at its start. */
  function Written(op: Op, shown: Appearance): Appearance {
    match op
    case SetOp(changes) => Merge(shown, changes)
    case ResetOp => DEFAULT_APPEARANCE
    case ImportOp(appearance, _) => appearance
  }

  function OnCallSet(s: State, patch: RawPatch): State {
    if Checked(patch).Some? then s.(queue := s.queue + [SetOp(Checked(patch).value)]) else s
  }

  function OnBegin(s: State): State
    requires s.queue != []
  {
    var op := s.queue[0];
    s.(queue := s.queue[1..],
       flight := if op.ImportOp? then WritingScheme(op, s.scheme, false)
                 else Writing(op, Written(op, s.shown), s.scheme, false))
  }

  /** The vault performs the write that is in flight. */
  function OnCommit(s: State): State
    requires InFlight(s)
  {
    match s.flight
    case Writing(op, next, previous, _) => s.(stored := Serialize(next), flight := Writing(op, next, previous, true))
    case WritingScheme(op, previous, _) =>
      s.(storedScheme := SchemeOf(op, s.storedScheme), flight := WritingScheme(op, previous, true))
    case Undoing(op, previous, _) => s.(storedScheme := previous, flight := Undoing(op, previous, true))
  }

  function SchemeOf(op: Op, fallback: Scheme): Scheme {
    if op.ImportOp? then op.scheme else fallback
  }

  /** The code goes on after a performed write. */
  function OnContinue(s: State): State
    requires !s.flight.Resting?
  {
    match s.flight
    case Writing(_, next, _, _) => s.(generation := s.generation + 1, shown := next, flight := Resting)
    case WritingScheme(op, previous, _) =>
      s.(scheme := SchemeOf(op, s.scheme), flight := Writing(op, Written(op, s.shown), previous, false))
    case Undoing(_, previous, _) => s.(scheme := previous, flight := Resting)
  }

  function OnWriteFails(s: State): State
    requires !s.flight.Resting?
  {
    match s.flight
    case Writing(op, _, previous, _) =>
      s.(flight := if op.ImportOp? then Undoing(op, previous, false) else Resting)
    case _ => s.(flight := Resting)
  }

  // ---- reads ----------------------------------------------------------------------------------------

  function OnCallLoad(s: State): State {
    s.(shown := DEFAULT_APPEARANCE, pending := s.pending + [Read(true, s.generation, None)])
  }

  function Dropped<T>(pending: seq<T>, i: nat): seq<T>
    requires i < |pending|
  {
    pending[..i] + pending[i + 1..]
  }

  /** A read goes on with what the vault answered, unless something newer was shown meanwhile. */
  function OnReturn(s: State, i: nat): State
    requires i < |s.pending| && s.pending[i].captured.Some?
  {
    var live := s.pending[i].at == s.generation;
    var next := Parse(s.pending[i].captured.value);
    var same := !s.pending[i].load && Serialize(next) == Serialize(s.shown);
    s.(pending := Dropped(s.pending, i),
       generation := if live && !s.pending[i].load then s.generation + 1 else s.generation,
       shown := if live && !same then next else s.shown)
  }

  function Apply(s: State, step: Step): State
    requires Possible(s, step)
  {
    match step
    case CallSet(patch) => OnCallSet(s, patch)
    case CallReset => s.(queue := s.queue + [ResetOp])
    case CallImport(a, scheme) => s.(queue := s.queue + [ImportOp(a, scheme)])
    case Begin => OnBegin(s)
    case Commit => OnCommit(s)
    case Continue => OnContinue(s)
    case WriteFails => OnWriteFails(s)
    case CallLoad => OnCallLoad(s)
    case CallRefresh => s.(pending := s.pending + [Read(false, s.generation, None)])
    case Serve(i) => s.(pending := s.pending[i := s.pending[i].(captured := Some(s.stored))])
    case Return(i) => OnReturn(s, i)
    case ReadFails(i) => s.(pending := Dropped(s.pending, i))
    case Remote(stored) => s.(stored := stored)
    case Clear => s.(shown := DEFAULT_APPEARANCE)
    case CallSchemeLoad => s.(scheme := System, schemeReads := s.schemeReads + [None])
    case CallSchemeRefresh => s.(schemeReads := s.schemeReads + [None])
    case ServeScheme(i) => s.(schemeReads := s.schemeReads[i := Some(s.storedScheme)])
    case ReturnScheme(i) => s.(scheme := s.schemeReads[i].value, schemeReads := Dropped(s.schemeReads, i))
    case SchemeReadFails(i) => s.(schemeReads := Dropped(s.schemeReads, i))
    case SettingsWrite(chosen) => s.(storedScheme := chosen, schemeSets := s.schemeSets + [chosen])
    case SettingsShow(i) => s.(scheme := s.schemeSets[i], schemeSets := Dropped(s.schemeSets, i))
  }

  ghost predicate PossibleRun(s: State, steps: seq<Step>)
    decreases |steps|
  {
    steps == [] || (Possible(s, steps[0]) && PossibleRun(Apply(s, steps[0]), steps[1..]))
  }

  ghost function Run(s: State, steps: seq<Step>): State
    requires PossibleRun(s, steps)
    decreases |steps|
  {
    if steps == [] then s else Run(Apply(s, steps[0]), steps[1..])
  }

  // ---- shown equals stored ------------------------------------------------------------------------

  /** Between the vault's write of an appearance and the code going on. */
  predicate Limbo(s: State) {
    s.flight.Writing? && s.flight.committed
  }

  /** A load that still counts. */
  predicate LoadIsLive(s: State) {
    exists i :: 0 <= i < |s.pending| && s.pending[i].load && s.pending[i].at == s.generation
  }

  predicate OpFits(op: Op) {
    match op
    case SetOp(changes) => CanonicalPatch(changes)
    case ResetOp => true
    case ImportOp(a, _) => IsCanonical(a)
  }

  predicate FlightFits(s: State) {
    match s.flight
    case Resting => true
    case Writing(op, next, _, committed) =>
      OpFits(op) && IsCanonical(next) && (committed ==> s.stored == Serialize(next))
    case WritingScheme(op, _, _) => OpFits(op) && op.ImportOp?
    case Undoing(op, _, _) => OpFits(op) && op.ImportOp?
  }

  predicate ReadFits(s: State, r: Read) {
    r.at <= s.generation
    && (r.at == s.generation && r.captured.Some? && !Limbo(s) ==> r.captured == Some(s.stored))
  }

  ghost predicate QueueInv(s: State) {
    IsCanonical(s.shown)
    && FlightFits(s)
    && (forall op :: op in s.queue ==> OpFits(op))
    && (forall r :: r in s.pending ==> ReadFits(s, r))
  }

  ghost predicate SyncInv(s: State) {
    QueueInv(s) && (Limbo(s) || LoadIsLive(s) || s.shown == Parse(s.stored))
  }

  /** This device is the only writer, the vault stays open, and loads are answered. */
  predicate Steady(s: State, step: Step) {
    match step
    case Remote(_) => false
    case Clear => false
    case ReadFails(i) => i < |s.pending| && !s.pending[i].load
    case _ => true
  }

  lemma ParseSerialized(a: Appearance)
    requires IsCanonical(a)
    ensures Parse(Serialize(a)) == a
  {
    ParseUndoesSerializeIff(a);
  }

  lemma WrittenIsCanonical(op: Op, shown: Appearance)
    requires OpFits(op) && IsCanonical(shown)
    ensures IsCanonical(Written(op, shown))
  {
    match op
    case SetOp(changes) => MergeIsCanonical(shown, changes);
    case ResetOp => DefaultIsCanonical();
    case _ =>
  }

  lemma CallKeepsInv(s: State, step: Step)
    requires QueueInv(s) && Possible(s, step) && (step.CallSet? || step.CallReset? || step.CallImport?)
    ensures QueueInv(Apply(s, step)) && (SyncInv(s) ==> SyncInv(Apply(s, step)))
  {
    if step.CallSet? {
      CheckedIsCanonical(step.patch);
    }
    var t := Apply(s, step);
    assert t == s.(queue := t.queue);
    assert LoadIsLive(t) == LoadIsLive(s);
  }

  lemma BeginKeepsInv(s: State)
    requires QueueInv(s) && Possible(s, Begin)
    ensures QueueInv(OnBegin(s)) && (SyncInv(s) ==> SyncInv(OnBegin(s)))
  {
    assert s.queue[0] in s.queue;
    WrittenIsCanonical(s.queue[0], s.shown);
    var t := OnBegin(s);
    assert forall op :: op in t.queue ==> op in s.queue;
    assert LoadIsLive(t) == LoadIsLive(s);
  }

  lemma CommitKeepsInv(s: State)
    requires QueueInv(s) && Possible(s, Commit)
    ensures QueueInv(OnCommit(s)) && (SyncInv(s) ==> SyncInv(OnCommit(s)))
  {
    var t := OnCommit(s);
    assert t.pending == s.pending && t.generation == s.generation;
    assert LoadIsLive(t) == LoadIsLive(s);
  }

  lemma ContinueKeepsInv(s: State)
    requires QueueInv(s) && Possible(s, Continue)
    ensures QueueInv(OnContinue(s)) && (SyncInv(s) ==> SyncInv(OnContinue(s)))
  {
    var t := OnContinue(s);
    assert t.pending == s.pending;
    if s.flight.Writing? {
      ParseSerialized(s.flight.next);
    } else {
      WrittenIsCanonical(s.flight.op, s.shown);
      assert LoadIsLive(t) == LoadIsLive(s);
    }
  }

  lemma FailureKeepsInv(s: State)
    requires QueueInv(s) && Possible(s, WriteFails)
    ensures QueueInv(OnWriteFails(s)) && (SyncInv(s) ==> SyncInv(OnWriteFails(s)))
  {
    var t := OnWriteFails(s);
    assert t == s.(flight := t.flight);
    assert LoadIsLive(t) == LoadIsLive(s);
  }

  lemma ReadStarts(s: State, load: bool, shown: Appearance)
    requires QueueInv(s) && IsCanonical(shown) && (load || shown == s.shown)
    ensures var t := s.(shown := shown, pending := s.pending + [Read(load, s.generation, None)]);
            QueueInv(t) && (load || SyncInv(s) ==> SyncInv(t))
  {
    var begun := Read(load, s.generation, None);
    var t := s.(shown := shown, pending := s.pending + [begun]);
    assert forall r :: r in t.pending ==> r in s.pending || r == begun;
    assert t.pending[|s.pending|] == begun;
    if LoadIsLive(s) {
      var i :| 0 <= i < |s.pending| && s.pending[i].load && s.pending[i].at == s.generation;
      assert t.pending[i] == s.pending[i];
    }
  }

  lemma ServeKeepsInv(s: State, i: nat)
    requires QueueInv(s) && Possible(s, Serve(i))
    ensures QueueInv(Apply(s, Serve(i))) && (SyncInv(s) ==> SyncInv(Apply(s, Serve(i))))
  {
    var served := s.pending[i].(captured := Some(s.stored));
    var t := s.(pending := s.pending[i := served]);
    assert s.pending[i] in s.pending;
    assert forall r :: r in t.pending ==> r in s.pending || r == served;
    if LoadIsLive(s) {
      var k :| 0 <= k < |s.pending| && s.pending[k].load && s.pending[k].at == s.generation;
      assert t.pending[k].load && t.pending[k].at == t.generation;
    }
  }

  lemma DroppedMembers(pending: seq<Read>, i: nat)
    requires i < |pending|
    ensures forall r :: r in Dropped(pending, i) ==> r in pending
    ensures forall r :: r in pending ==> r in Dropped(pending, i) || r == pending[i]
  {
    assert pending == pending[..i] + [pending[i]] + pending[i + 1..];
  }

  lemma LiveMember(s: State, r: Read)
    requires r in s.pending && r.load && r.at == s.generation
    ensures LoadIsLive(s)
  {
    var k :| 0 <= k < |s.pending| && s.pending[k] == r;
  }

  lemma ReturnKeepsInv(s: State, i: nat)
    requires QueueInv(s) && Possible(s, Return(i))
    ensures QueueInv(OnReturn(s, i)) && (SyncInv(s) ==> SyncInv(OnReturn(s, i)))
  {
    var r := s.pending[i];
    assert r in s.pending;
    var t := OnReturn(s, i);
    DroppedMembers(s.pending, i);
    ParseIsCanonical(r.captured.value);
    var next := Parse(r.captured.value);
    ParseSerialized(next);
    ParseSerialized(s.shown);
    assert forall x :: x in t.pending ==> ReadFits(s, x);
    if r.at == s.generation {
      assert t.shown == next;
    } else {
      assert t == s.(pending := t.pending);
      OtherLiveStays(s, i);
    }
  }

  lemma OtherLiveStays(s: State, i: nat)
    requires i < |s.pending| && (s.pending[i].at != s.generation || !s.pending[i].load)
    ensures LoadIsLive(s) ==> LoadIsLive(s.(pending := Dropped(s.pending, i)))
  {
    if LoadIsLive(s) {
      var k :| 0 <= k < |s.pending| && s.pending[k].load && s.pending[k].at == s.generation;
      DroppedMembers(s.pending, i);
      LiveMember(s.(pending := Dropped(s.pending, i)), s.pending[k]);
    }
  }

  predicate IsSchemeStep(step: Step) {
    step.CallSchemeLoad? || step.CallSchemeRefresh? || step.ServeScheme? || step.ReturnScheme? || step.SchemeReadFails?
    || step.SettingsWrite? || step.SettingsShow?
  }

  lemma SchemeStepKeepsInv(s: State, step: Step)
    requires QueueInv(s) && Possible(s, step) && IsSchemeStep(step)
    ensures QueueInv(Apply(s, step)) && (SyncInv(s) ==> SyncInv(Apply(s, step)))
  {
    var t := Apply(s, step);
    assert t == s.(scheme := t.scheme, schemeReads := t.schemeReads, storedScheme := t.storedScheme, schemeSets := t.schemeSets);
    assert LoadIsLive(t) == LoadIsLive(s);
  }

  lemma StepKeepsInv(s: State, step: Step)
    requires QueueInv(s) && Possible(s, step) && !step.Remote?
    ensures QueueInv(Apply(s, step))
    ensures Steady(s, step) && (SyncInv(s) || step.CallLoad?) ==> SyncInv(Apply(s, step))
  {
    match step
    case CallSet(_) => CallKeepsInv(s, step);
    case CallReset => CallKeepsInv(s, step);
    case CallImport(_, _) => CallKeepsInv(s, step);
    case Begin => BeginKeepsInv(s);
    case Commit => CommitKeepsInv(s);
    case Continue => ContinueKeepsInv(s);
    case WriteFails => FailureKeepsInv(s);
    case CallLoad =>
      DefaultIsCanonical();
      ReadStarts(s, true, DEFAULT_APPEARANCE);
    case CallRefresh => ReadStarts(s, false, s.shown);
    case Serve(i) => ServeKeepsInv(s, i);
    case Return(i) => ReturnKeepsInv(s, i);
    case ReadFails(i) =>
      DroppedMembers(s.pending, i);
      if !s.pending[i].load {
        OtherLiveStays(s, i);
      }
    case Clear => DefaultIsCanonical();
    case CallSchemeLoad => SchemeStepKeepsInv(s, step);
    case CallSchemeRefresh => SchemeStepKeepsInv(s, step);
    case ServeScheme(_) => SchemeStepKeepsInv(s, step);
    case ReturnScheme(_) => SchemeStepKeepsInv(s, step);
    case SchemeReadFails(_) => SchemeStepKeepsInv(s, step);
    case SettingsWrite(_) => SchemeStepKeepsInv(s, step);
    case SettingsShow(_) => SchemeStepKeepsInv(s, step);
  }

  ghost predicate SteadyRun(s: State, steps: seq<Step>)
    decreases |steps|
  {
    steps == []
    || (Possible(s, steps[0]) && Steady(s, steps[0]) && SteadyRun(Apply(s, steps[0]), steps[1..]))
  }

  lemma {:induction false} SteadyKeepsInv(s: State, steps: seq<Step>)
    requires SyncInv(s) && SteadyRun(s, steps)
    ensures PossibleRun(s, steps) && SyncInv(Run(s, steps))
    decreases |steps|
  {
    if steps != [] {
      StepKeepsInv(s, steps[0]);
      SteadyKeepsInv(Apply(s, steps[0]), steps[1..]);
    }
  }

  lemma {:induction false} RunKeepsInv(s: State, steps: seq<Step>)
    requires QueueInv(s) && PossibleRun(s, steps) && forall step :: step in steps ==> !step.Remote?
    ensures QueueInv(Run(s, steps))
    decreases |steps|
  {
    if steps != [] {
      StepKeepsInv(s, steps[0]);
      RunKeepsInv(Apply(s, steps[0]), steps[1..]);
    }
  }

  /** The app as it starts, with some vault. */
  predicate Fresh(s: State) {
    s.shown == DEFAULT_APPEARANCE && s.generation == 0 && s.queue == [] && s.flight.Resting? && s.pending == []
    && s.scheme == System && s.schemeReads == [] && s.schemeSets == []
  }

  /**
   * With this device the only writer, and from any load on that is not failed or cleared away again:
   * whatever loads, refreshes and local writes overlap, whenever no write is between the vault and the
   * code and no load is running, what is shown is what is stored.
   */
  lemma ShownEqualsStored(s: State, before: seq<Step>, steps: seq<Step>)
    requires Fresh(s) && PossibleRun(s, before) && forall step :: step in before ==> !step.Remote?
    requires SteadyRun(Apply(Run(s, before), CallLoad), steps)
    ensures PossibleRun(Apply(Run(s, before), CallLoad), steps)
    ensures var t := Run(Apply(Run(s, before), CallLoad), steps);
            (Limbo(t) || (exists r :: r in t.pending && r.load) || t.shown == Parse(t.stored))
            && IsCanonical(t.shown)
  {
    DefaultIsCanonical();
    RunKeepsInv(s, before);
    StepKeepsInv(Run(s, before), CallLoad);
    SteadyKeepsInv(Apply(Run(s, before), CallLoad), steps);
    var t := Run(Apply(Run(s, before), CallLoad), steps);
    if LoadIsLive(t) {
      var k :| 0 <= k < |t.pending| && t.pending[k].load && t.pending[k].at == t.generation;
      assert t.pending[k] in t.pending && t.pending[k].load;
    }
  }

  // ---- where the two conditions are needed --------------------------------------------------------

  /** What holds of the screen and the queue even when other devices write. */
  ghost predicate ShownInv(s: State) {
    IsCanonical(s.shown)
    && (forall op :: op in s.queue ==> OpFits(op))
    && (!s.flight.Resting? ==> OpFits(s.flight.op) && (!s.flight.Writing? ==> s.flight.op.ImportOp?))
    && (s.flight.Writing? ==> IsCanonical(s.flight.next))
    && (forall r :: r in s.pending ==> r.at <= s.generation)
  }

  lemma StepKeepsShown(s: State, step: Step)
    requires ShownInv(s) && Possible(s, step)
    ensures ShownInv(Apply(s, step))
  {
    DefaultIsCanonical();
    match step
    case CallSet(patch) => CheckedIsCanonical(patch);
    case Begin =>
      assert s.queue[0] in s.queue;
      WrittenIsCanonical(s.queue[0], s.shown);
    case Continue => WrittenIsCanonical(s.flight.op, s.shown);
    case Return(i) =>
      ParseIsCanonical(s.pending[i].captured.value);
      DroppedMembers(s.pending, i);
    case Serve(i) => assert s.pending[i] in s.pending;
    case ReadFails(i) => DroppedMembers(s.pending, i);
    case _ =>
  }

  lemma {:induction false} RunKeepsShown(s: State, steps: seq<Step>)
    requires ShownInv(s) && PossibleRun(s, steps)
    ensures ShownInv(Run(s, steps))
    decreases |steps|
  {
    if steps != [] {
      StepKeepsShown(s, steps[0]);
      RunKeepsShown(Apply(s, steps[0]), steps[1..]);
    }
  }

  /** None of the steps brings the answer of a load. */
  ghost predicate NoLoadReturns(s: State, steps: seq<Step>)
    requires PossibleRun(s, steps)
    decreases |steps|
  {
    steps != [] ==>
      (steps[0].Return? ==> !s.pending[steps[0].i].load) && NoLoadReturns(Apply(s, steps[0]), steps[1..])
  }

  /** While the generation is that of a load, and no load has answered, the defaults are on screen. */
  lemma {:induction false} LoadShowsDefaults(s: State, steps: seq<Step>)
    requires s.shown == DEFAULT_APPEARANCE && PossibleRun(s, steps) && NoLoadReturns(s, steps)
    ensures Run(s, steps).generation >= s.generation
    ensures Run(s, steps).generation == s.generation ==> Run(s, steps).shown == DEFAULT_APPEARANCE
    decreases |steps|
  {
    if steps != [] {
      var t := Apply(s, steps[0]);
      assert t.generation > s.generation || t.shown == DEFAULT_APPEARANCE;
      if t.shown == DEFAULT_APPEARANCE {
        LoadShowsDefaults(t, steps[1..]);
      } else {
        GenerationRises(t, steps[1..]);
      }
    }
  }

  lemma {:induction false} GenerationRises(s: State, steps: seq<Step>)
    requires PossibleRun(s, steps)
    ensures Run(s, steps).generation >= s.generation
    decreases |steps|
  {
    if steps != [] {
      GenerationRises(Apply(s, steps[0]), steps[1..]);
    }
  }

  /** What a queued choice keeps of the stored appearance is decided by the screen at its start. */
  lemma SetKeepsStoredIff(s: State, changes: Patch)
    requires ShownInv(s) && Possible(s, Begin) && s.queue[0] == SetOp(changes)
    ensures var begun := Apply(s, Begin);
            begun.flight.Writing? && Possible(begun, Commit)
            && (Parse(Apply(begun, Commit).stored) == Merge(Parse(s.stored), changes)
                <==> AgreeOutside(s.shown, Parse(s.stored), changes))
  {
    assert s.queue[0] in s.queue;
    MergeIsCanonical(s.shown, changes);
    ParseSerialized(Merge(s.shown, changes));
    MergeAgreesIff(s.shown, Parse(s.stored), changes);
  }

  /**
   * A choice whose turn comes while a load is running, or after it failed, is merged into the defaults on
   * screen: of what is stored it keeps the rest if and only if every control it leaves out, and the hint
   * if it leaves that out, is stored with its default.
   */
  lemma SetDuringLoadForgets(s: State, steps: seq<Step>, changes: Patch)
    requires ShownInv(s) && PossibleRun(Apply(s, CallLoad), steps) && NoLoadReturns(Apply(s, CallLoad), steps)
    requires var t := Run(Apply(s, CallLoad), steps);
             t.generation == s.generation && Possible(t, Begin) && t.queue[0] == SetOp(changes)
    ensures var t := Run(Apply(s, CallLoad), steps);
            Possible(Apply(t, Begin), Commit)
            && (Parse(Apply(Apply(t, Begin), Commit).stored) == Merge(Parse(t.stored), changes)
                <==> AgreeOutside(DEFAULT_APPEARANCE, Parse(t.stored), changes))
  {
    DefaultIsCanonical();
    StepKeepsShown(s, CallLoad);
    RunKeepsShown(Apply(s, CallLoad), steps);
    LoadShowsDefaults(Apply(s, CallLoad), steps);
    SetKeepsStoredIff(Run(Apply(s, CallLoad), steps), changes);
  }

  // ---- with other devices writing ---------------------------------------------------------------------

  /** Something newer is shown: a local write, or a refresh that was not outdated. */
  predicate Counts(s: State, step: Step)
    requires Possible(s, step)
  {
    (step.Continue? && s.flight.Writing?)
    || (step.Return? && !s.pending[step.i].load && s.pending[step.i].at == s.generation)
  }

  ghost predicate NothingCounts(s: State, steps: seq<Step>)
    requires PossibleRun(s, steps)
    decreases |steps|
  {
    steps != [] ==> !Counts(s, steps[0]) && NothingCounts(Apply(s, steps[0]), steps[1..])
  }

  /** The generation says exactly whether something counted since. */
  lemma {:induction false} GenerationStaysIff(s: State, steps: seq<Step>)
    requires PossibleRun(s, steps)
    ensures Run(s, steps).generation == s.generation <==> NothingCounts(s, steps)
    decreases |steps|
  {
    if steps != [] {
      var t := Apply(s, steps[0]);
      GenerationStaysIff(t, steps[1..]);
      GenerationRises(t, steps[1..]);
      assert t.generation == if Counts(s, steps[0]) then s.generation + 1 else s.generation;
    }
  }

  /** An answer with what is stored brings it on screen if and only if it is not outdated, or it was there already. */
  lemma ReturnShowsStoredIff(s: State, i: nat)
    requires ShownInv(s) && Possible(s, Return(i))
    requires s.pending[i].at == s.generation ==> s.pending[i].captured == Some(s.stored)
    ensures Apply(s, Return(i)).shown == Parse(s.stored)
            <==> s.pending[i].at == s.generation || s.shown == Parse(s.stored)
  {
    ParseIsCanonical(s.pending[i].captured.value);
    ParseSerialized(Parse(s.pending[i].captured.value));
    ParseSerialized(s.shown);
  }

  /** Where a running read stands after a step, unless it ended. */
  function Moved(i: nat, step: Step): Option<nat> {
    match step
    case Return(j) => if j < i then Some(i - 1) else if j == i then None else Some(i)
    case ReadFails(j) => if j < i then Some(i - 1) else if j == i then None else Some(i)
    case _ => Some(i)
  }

  function MovedBy(i: nat, steps: seq<Step>): Option<nat>
    decreases |steps|
  {
    if steps == [] then Some(i)
    else if Moved(i, steps[0]).None? then None
    else MovedBy(Moved(i, steps[0]).value, steps[1..])
  }

  /** The read `i` is a refresh of generation `at`; if that is still the generation, it saw what is stored. */
  predicate RefreshFits(s: State, i: nat, at: nat) {
    i < |s.pending| && !s.pending[i].load && s.pending[i].at == at
    && (at == s.generation && s.pending[i].captured.Some? && !Limbo(s) ==> s.pending[i].captured == Some(s.stored))
  }

  lemma RefreshStep(s: State, i: nat, at: nat, step: Step)
    requires RefreshFits(s, i, at) && at <= s.generation && Possible(s, step) && !step.Remote?
    requires Moved(i, step).Some?
    ensures at <= Apply(s, step).generation && RefreshFits(Apply(s, step), Moved(i, step).value, at)
  {
  }

  lemma {:induction false} RefreshRun(s: State, i: nat, at: nat, steps: seq<Step>)
    requires RefreshFits(s, i, at) && at <= s.generation && PossibleRun(s, steps)
    requires (forall step :: step in steps ==> !step.Remote?) && MovedBy(i, steps).Some?
    ensures RefreshFits(Run(s, steps), MovedBy(i, steps).value, at)
    decreases |steps|
  {
    if steps != [] {
      RefreshStep(s, i, at, steps[0]);
      RefreshRun(Apply(s, steps[0]), Moved(i, steps[0]).value, at, steps[1..]);
    }
  }

  /**
   * A refresh called when no other device writes any more, whatever reads and local writes overlap it, and
   * however late: when it goes on, with no write between the vault and the code, what is stored is shown if
   * and only if nothing counted since its call, or it was shown already. If nothing counted, shown and
   * stored are in step again (`SyncInv`), as `ShownEqualsStored` needs it from there on.
   */
  lemma RefreshShowsStoredIff(s: State, steps: seq<Step>, i: nat)
    requires ShownInv(s) && PossibleRun(Apply(s, CallRefresh), steps) && forall step :: step in steps ==> !step.Remote?
    requires MovedBy(|s.pending|, steps) == Some(i)
    requires Possible(Run(Apply(s, CallRefresh), steps), Return(i)) && !Limbo(Run(Apply(s, CallRefresh), steps))
    ensures var called := Apply(s, CallRefresh);
            var t := Run(called, steps);
            (Apply(t, Return(i)).shown == Parse(t.stored) <==> NothingCounts(called, steps) || t.shown == Parse(t.stored))
            && (NothingCounts(called, steps) ==> SyncInv(Apply(t, Return(i))))
  {
    var called := Apply(s, CallRefresh);
    StepKeepsShown(s, CallRefresh);
    RunKeepsShown(called, steps);
    RefreshRun(called, |s.pending|, s.generation, steps);
    GenerationStaysIff(called, steps);
    var t := Run(called, steps);
    ReturnShowsStoredIff(t, i);
    if t.generation == s.generation {
      CountedRefreshSyncs(t, i);
    }
  }

  /** An answer that counts outdates every other running read, and leaves shown and stored in step. */
  lemma CountedRefreshSyncs(s: State, i: nat)
    requires ShownInv(s) && Possible(s, Return(i)) && !Limbo(s)
    requires !s.pending[i].load && s.pending[i].at == s.generation && s.pending[i].captured == Some(s.stored)
    ensures SyncInv(Apply(s, Return(i)))
  {
    StepKeepsShown(s, Return(i));
    ReturnShowsStoredIff(s, i);
    var t := Apply(s, Return(i));
    DroppedMembers(s.pending, i);
    assert t.generation == s.generation + 1;
    assert forall r :: r in t.pending ==> r.at < t.generation && ReadFits(t, r);
  }

  /**
   * With another device writing, an earlier refresh that answers first makes the later one, which saw the
   * newer value, count for nothing: both are done and the older value stays on screen.
   */
  lemma EarlierRefreshHidesLater(s: State, newer: Stored)
    requires QueueInv(s) && s.pending == [] && s.flight.Resting? && s.shown == Parse(s.stored)
    ensures var run := [CallRefresh, Serve(0), Remote(newer), CallRefresh, Serve(1), Return(0), Return(0)];
            PossibleRun(s, run) && Run(s, run).pending == [] && Run(s, run).stored == newer
            && Run(s, run).shown == s.shown
  {
    var first := [CallRefresh, Serve(0), Remote(newer), CallRefresh, Serve(1)];
    TwoRefreshes(s, newer);
    BothReturn(Run(s, first), s.stored, newer);
    RunSplit(s, first, [Return(0), Return(0)]);
    assert first + [Return(0), Return(0)]
        == [CallRefresh, Serve(0), Remote(newer), CallRefresh, Serve(1), Return(0), Return(0)];
  }

  /** A refresh called and served at once. */
  lemma RefreshServed(s: State, k: nat)
    requires k == |s.pending|
    ensures PossibleRun(s, [CallRefresh, Serve(k)])
    ensures Run(s, [CallRefresh, Serve(k)]) == s.(pending := s.pending + [Read(false, s.generation, Some(s.stored))])
  {
    var called := Apply(s, CallRefresh);
    assert Apply(called, Serve(k)).pending == s.pending + [Read(false, s.generation, Some(s.stored))];
    RunOne(called, Serve(k), []);
    RunOne(s, CallRefresh, [Serve(k)] + []);
    assert [CallRefresh] + ([Serve(k)] + []) == [CallRefresh, Serve(k)];
  }

  lemma TwoRefreshes(s: State, newer: Stored)
    requires s.pending == []
    ensures var run := [CallRefresh, Serve(0), Remote(newer), CallRefresh, Serve(1)];
            PossibleRun(s, run)
            && Run(s, run) == s.(stored := newer,
                                 pending := [Read(false, s.generation, Some(s.stored)), Read(false, s.generation, Some(newer))])
  {
    var first, second := [CallRefresh, Serve(0)], [CallRefresh, Serve(1)];
    RefreshServed(s, 0);
    var s1 := Run(s, first);
    var s2 := Apply(s1, Remote(newer));
    RefreshServed(s2, 1);
    RunOne(s1, Remote(newer), second);
    RunSplit(s, first, [Remote(newer)] + second);
    assert first + ([Remote(newer)] + second) == [CallRefresh, Serve(0), Remote(newer), CallRefresh, Serve(1)];
  }

  lemma BothReturn(s: State, older: Stored, newer: Stored)
    requires s.shown == Parse(older)
    requires s.pending == [Read(false, s.generation, Some(older)), Read(false, s.generation, Some(newer))]
    ensures PossibleRun(s, [Return(0), Return(0)])
    ensures var t := Run(s, [Return(0), Return(0)]); t.pending == [] && t.shown == s.shown && t.stored == s.stored
  {
    var t := Apply(s, Return(0));
    assert t.pending == [Read(false, s.generation, Some(newer))] && t.generation == s.generation + 1;
    assert t.shown == s.shown && t.stored == s.stored;
    RunOne(t, Return(0), []);
    RunOne(s, Return(0), [Return(0)] + []);
    assert [Return(0)] + ([Return(0)] + []) == [Return(0), Return(0)];
  }

  lemma RunSplit(s: State, first: seq<Step>, second: seq<Step>)
    requires PossibleRun(s, first)
    ensures PossibleRun(s, first + second) <==> PossibleRun(Run(s, first), second)
    ensures PossibleRun(s, first + second) ==> Run(s, first + second) == Run(Run(s, first), second)
    decreases |first|
  {
    if first == [] {
      assert first + second == second;
    } else {
      assert (first + second)[1..] == first[1..] + second;
      RunSplit(Apply(s, first[0]), first[1..], second);
    }
  }

  lemma RunOne(s: State, first: Step, rest: seq<Step>)
    requires Possible(s, first) && PossibleRun(Apply(s, first), rest)
    ensures PossibleRun(s, [first] + rest) && Run(s, [first] + rest) == Run(Apply(s, first), rest)
  {
    assert ([first] + rest)[1..] == rest;
  }

  // ---- the write queue ------------------------------------------------------------------------------

  /** How an operation ended; `ok` when its appearance is on screen. */
  datatype Ended = Ended(op: Op, ok: bool)

  predicate IsWriteStep(step: Step) {
    step.CallSet? || step.CallReset? || step.CallImport? || step.Begin? || step.Commit? || step.Continue? || step.WriteFails?
  }

  ghost predicate WriteRun(s: State, steps: seq<Step>)
    decreases |steps|
  {
    steps == [] || (Possible(s, steps[0]) && IsWriteStep(steps[0]) && WriteRun(Apply(s, steps[0]), steps[1..]))
  }

  /** The operations the steps put into the queue, in call order. */
  ghost function Called(steps: seq<Step>): seq<Op>
    decreases |steps|
  {
    if steps == [] then [] else CalledBy(steps[0]) + Called(steps[1..])
  }

  function CalledBy(step: Step): seq<Op> {
    match step
    case CallSet(patch) => if Checked(patch).Some? then [SetOp(Checked(patch).value)] else []
    case CallReset => [ResetOp]
    case CallImport(a, scheme) => [ImportOp(a, scheme)]
    case _ => []
  }

  function EndedBy(s: State, step: Step): seq<Ended>
    requires Possible(s, step)
  {
    if step.Continue? && s.flight.Writing? then [Ended(s.flight.op, true)]
    else if step.Continue? && s.flight.Undoing? then [Ended(s.flight.op, false)]
    else if step.WriteFails? && !(s.flight.Writing? && s.flight.op.ImportOp?) then [Ended(s.flight.op, false)]
    else []
  }

  /** The operations that ended during a run, in that order. */
  ghost function Log(s: State, steps: seq<Step>): seq<Ended>
    requires WriteRun(s, steps)
    decreases |steps|
  {
    if steps == [] then [] else EndedBy(s, steps[0]) + Log(Apply(s, steps[0]), steps[1..])
  }

  function Ops(log: seq<Ended>): seq<Op> {
    if log == [] then [] else [log[0].op] + Ops(log[1..])
  }

  function Busy(s: State): seq<Op> {
    if s.flight.Resting? then [] else [s.flight.op]
  }

  /** The operation at work and those that wait. */
  function Line(s: State): seq<Op> {
    Busy(s) + s.queue
  }

  /** The successful operations applied one after the other. */
  function Fold(shown: Appearance, log: seq<Ended>): Appearance
    decreases |log|
  {
    if log == [] then shown else Fold(if log[0].ok then Written(log[0].op, shown) else shown, log[1..])
  }

  predicate NextFits(s: State) {
    s.flight.Writing? ==> s.flight.next == Written(s.flight.op, s.shown)
  }

  lemma OpsConcat(a: seq<Ended>, b: seq<Ended>)
    ensures Ops(a + b) == Ops(a) + Ops(b)
  {
    if a == [] {
      assert a + b == b;
    } else {
      assert (a + b)[1..] == a[1..] + b;
    }
  }

  lemma StepIsFifo(s: State, step: Step)
    requires Possible(s, step) && IsWriteStep(step)
    ensures Ops(EndedBy(s, step)) + Line(Apply(s, step)) == Line(s) + CalledBy(step)
  {
    var t := Apply(s, step);
    if step.Begin? {
      assert t.queue == s.queue[1..] && Busy(t) == [s.queue[0]];
      assert s.queue == [s.queue[0]] + s.queue[1..];
    } else if step.Commit? {
      assert Line(t) == Line(s);
    } else if step.Continue? || step.WriteFails? {
      assert t.queue == s.queue;
      assert Ops(EndedBy(s, step)) == if EndedBy(s, step) == [] then [] else [s.flight.op];
    } else {
      assert t.queue == s.queue + CalledBy(step);
    }
  }

  /** Nothing overtakes: what ended, what is at work and what waits are the calls in call order. */
  lemma {:induction false} QueueIsFifo(s: State, steps: seq<Step>)
    requires WriteRun(s, steps) && PossibleRun(s, steps)
    ensures Ops(Log(s, steps)) + Line(Run(s, steps)) == Line(s) + Called(steps)
    decreases |steps|
  {
    if steps != [] {
      var t := Apply(s, steps[0]);
      QueueIsFifo(t, steps[1..]);
      OpsConcat(EndedBy(s, steps[0]), Log(t, steps[1..]));
      StepIsFifo(s, steps[0]);
      FifoStep(Ops(EndedBy(s, steps[0])), Ops(Log(t, steps[1..])), Line(Run(s, steps)), Line(t), Called(steps[1..]),
               Line(s), CalledBy(steps[0]));
    }
  }

  lemma FifoStep(ended: seq<Op>, log: seq<Op>, end: seq<Op>, mid: seq<Op>, rest: seq<Op>, begin: seq<Op>, called: seq<Op>)
    requires log + end == mid + rest && ended + mid == begin + called
    ensures ended + log + end == begin + (called + rest)
  {
    assert ended + log + end == ended + (log + end);
    assert ended + (mid + rest) == (ended + mid) + rest;
    assert (begin + called) + rest == begin + (called + rest);
  }

  lemma {:induction false} ShownIsFold(s: State, steps: seq<Step>)
    requires WriteRun(s, steps) && NextFits(s)
    ensures PossibleRun(s, steps) && Run(s, steps).shown == Fold(s.shown, Log(s, steps))
    decreases |steps|
  {
    if steps != [] {
      var t := Apply(s, steps[0]);
      ShownIsFold(t, steps[1..]);
      var ended := EndedBy(s, steps[0]);
      assert ended == [] ==> t.shown == s.shown && ended + Log(t, steps[1..]) == Log(t, steps[1..]);
      if ended != [] {
        assert (ended + Log(t, steps[1..]))[1..] == Log(t, steps[1..]);
        assert t.shown == if ended[0].ok then Written(ended[0].op, s.shown) else s.shown;
      }
    }
  }

  lemma {:induction false} WritesAreSteady(s: State, steps: seq<Step>)
    requires WriteRun(s, steps)
    ensures SteadyRun(s, steps)
    decreases |steps|
  {
    if steps != [] {
      WritesAreSteady(Apply(s, steps[0]), steps[1..]);
    }
  }

  lemma {:induction false} WritesReadNothing(s: State, steps: seq<Step>)
    requires WriteRun(s, steps) && PossibleRun(s, steps)
    ensures Run(s, steps).pending == s.pending
    decreases |steps|
  {
    if steps != [] {
      WritesReadNothing(Apply(s, steps[0]), steps[1..]);
    }
  }

  /**
   * With no read running: the shown appearance is the left fold of the successful operations in call
   * order, a failed one leaves no trace in it, and the vault holds the same.
   */
  lemma QueueFolds(s: State, steps: seq<Step>)
    requires QueueInv(s) && s.flight.Resting? && s.queue == [] && s.pending == [] && s.shown == Parse(s.stored)
    requires WriteRun(s, steps)
    ensures PossibleRun(s, steps)
    ensures Run(s, steps).shown == Fold(s.shown, Log(s, steps))
    ensures Ops(Log(s, steps)) + Line(Run(s, steps)) == Called(steps)
    ensures Limbo(Run(s, steps)) || Run(s, steps).shown == Parse(Run(s, steps).stored)
  {
    ShownIsFold(s, steps);
    QueueIsFifo(s, steps);
    assert Line(s) + Called(steps) == Called(steps);
    WritesAreSteady(s, steps);
    SteadyKeepsInv(s, steps);
    WritesReadNothing(s, steps);
  }

  // ---- import -----------------------------------------------------------------------------------------

  /** How an import ended: done, refused by its first write, taken back by its compensation, or half done. */
  datatype ImportEnd = Running | Done | NotBegun | TakenBack | HalfDone

  /** The end of the import at work, read off the first step that brings one. */
  ghost function EndOf(s: State, steps: seq<Step>): ImportEnd
    requires PossibleRun(s, steps)
    decreases |steps|
  {
    if steps == [] then Running
    else if steps[0].Continue? && s.flight.Writing? then Done
    else if steps[0].WriteFails? && s.flight.WritingScheme? then NotBegun
    else if steps[0].Continue? && s.flight.Undoing? then TakenBack
    else if steps[0].WriteFails? && s.flight.Undoing? then HalfDone
    else EndOf(Apply(s, steps[0]), steps[1..])
  }

  /** No write of another device or of the settings, and no next operation. */
  predicate IsLocalStep(step: Step) {
    !step.Remote? && !step.Begin? && !step.SettingsWrite?
  }

  /** The vault while the import `op`, begun in `before`, is at work. */
  predicate VaultFits(before: State, s: State, op: Op)
    requires op.ImportOp?
  {
    match s.flight
    case Resting => false
    case WritingScheme(at, previous, committed) =>
      at == op && previous == before.scheme && s.stored == before.stored
      && s.storedScheme == if committed then op.scheme else before.storedScheme
    case Writing(at, next, previous, committed) =>
      at == op && next == op.appearance && previous == before.scheme && s.storedScheme == op.scheme
      && s.stored == if committed then Serialize(next) else before.stored
    case Undoing(at, previous, committed) =>
      at == op && previous == before.scheme && s.stored == before.stored
      && s.storedScheme == if committed then previous else op.scheme
  }

  /** The vault after an import ended so. */
  predicate VaultAfter(before: State, s: State, op: Op, end: ImportEnd)
    requires op.ImportOp?
  {
    s.stored == (if end.Done? then Serialize(op.appearance) else before.stored)
    && s.storedScheme == match end
                         case Done => op.scheme
                         case HalfDone => op.scheme
                         case TakenBack => before.scheme
                         case _ => before.storedScheme
  }

  lemma ImportStep(before: State, s: State, op: Op, step: Step)
    requires op.ImportOp? && VaultFits(before, s, op) && Possible(s, step) && IsLocalStep(step)
    ensures var t, end := Apply(s, step), EndOf(s, [step]);
            if end.Running? then VaultFits(before, t, op) else t.flight.Resting? && VaultAfter(before, t, op, end)
  {
    assert [step][1..] == [];
  }

  lemma RestingStep(s: State, step: Step)
    requires s.flight.Resting? && Possible(s, step) && IsLocalStep(step)
    ensures var t := Apply(s, step);
            t.flight.Resting? && t.stored == s.stored && t.storedScheme == s.storedScheme
            && (IsWriteStep(step) ==> t.shown == s.shown && t.scheme == s.scheme)
  {
  }

  lemma {:induction false} RestingVaultStays(before: State, s: State, op: Op, steps: seq<Step>, end: ImportEnd)
    requires op.ImportOp? && s.flight.Resting? && VaultAfter(before, s, op, end)
    requires PossibleRun(s, steps) && forall step :: step in steps ==> IsLocalStep(step)
    ensures Run(s, steps).flight.Resting? && VaultAfter(before, Run(s, steps), op, end)
    decreases |steps|
  {
    if steps != [] {
      RestingStep(s, steps[0]);
      RestingVaultStays(before, Apply(s, steps[0]), op, steps[1..], end);
    }
  }

  lemma {:induction false} ImportGoesOn(before: State, s: State, op: Op, steps: seq<Step>)
    requires op.ImportOp? && VaultFits(before, s, op)
    requires PossibleRun(s, steps) && forall step :: step in steps ==> IsLocalStep(step)
    ensures var t, end := Run(s, steps), EndOf(s, steps);
            if end.Running? then VaultFits(before, t, op) else t.flight.Resting? && VaultAfter(before, t, op, end)
    decreases |steps|
  {
    if steps != [] {
      ImportStep(before, s, op, steps[0]);
      var t, end := Apply(s, steps[0]), EndOf(s, [steps[0]]);
      assert [steps[0]][1..] == [];
      if end.Running? {
        ImportGoesOn(before, t, op, steps[1..]);
      } else {
        RestingVaultStays(before, t, op, steps[1..], end);
      }
    }
  }

  /**
   * What every import leaves in the vault, whatever reads, loads and calls come between its writes: once it
   * ended, both values are new, or both untouched, or the appearance is the old one and the scheme is the one
   * that was on screen (the compensation) or the new one (the compensation failed).
   */
  lemma ImportLeaves(s: State, steps: seq<Step>)
    requires Possible(s, Begin) && s.queue[0].ImportOp?
    requires PossibleRun(OnBegin(s), steps) && forall step :: step in steps ==> IsLocalStep(step)
    ensures var t, end := Run(OnBegin(s), steps), EndOf(OnBegin(s), steps);
            (t.flight.Resting? <==> !end.Running?) && (!end.Running? ==> VaultAfter(s, t, s.queue[0], end))
  {
    ImportGoesOn(s, OnBegin(s), s.queue[0], steps);
  }

  predicate VaultIsOld(before: State, s: State) {
    s.stored == before.stored && s.storedScheme == before.storedScheme
  }

  /**
   * An import that did not succeed leaves the vault as it was: always when its first write failed; after a
   * compensation if and only if the screen had shown the stored scheme, because the code takes the
   * scheme to restore from the screen; without one only if nothing was to change.
   */
  lemma ImportIsAllOrNothingIff(s: State, steps: seq<Step>)
    requires Possible(s, Begin) && s.queue[0].ImportOp?
    requires PossibleRun(OnBegin(s), steps) && forall step :: step in steps ==> IsLocalStep(step)
    ensures var t, op := Run(OnBegin(s), steps), s.queue[0];
            match EndOf(OnBegin(s), steps)
            case Running => true
            case Done => t.stored == Serialize(op.appearance) && t.storedScheme == op.scheme
            case NotBegun => VaultIsOld(s, t)
            case TakenBack => VaultIsOld(s, t) <==> s.scheme == s.storedScheme
            case HalfDone => VaultIsOld(s, t) <==> op.scheme == s.storedScheme
  {
    ImportLeaves(s, steps);
  }

  // ---- a scheme chosen in the settings meanwhile ------------------------------------------------------

  /** The vault performs a scheme write of the import: its own, or its compensation. */
  predicate WritesScheme(s: State, step: Step) {
    step.Commit? && !s.flight.Writing?
  }

  ghost predicate Overwrites(s: State, steps: seq<Step>)
    requires PossibleRun(s, steps)
    decreases |steps|
  {
    steps != [] && (WritesScheme(s, steps[0]) || Overwrites(Apply(s, steps[0]), steps[1..]))
  }

  /** The import after the settings wrote `chosen`; `wrote` when the import has written a scheme since. */
  predicate AfterSettings(before: State, s: State, op: Op, chosen: Scheme, wrote: bool)
    requires op.ImportOp?
  {
    match s.flight
    case Resting => false
    case WritingScheme(at, previous, _) =>
      at == op && previous == before.scheme && s.storedScheme == if wrote then op.scheme else chosen
    case Writing(at, _, previous, _) =>
      at == op && previous == before.scheme && s.storedScheme == if wrote then op.scheme else chosen
    case Undoing(at, previous, committed) =>
      at == op && previous == before.scheme
      && s.storedScheme == if !wrote then chosen else if committed then previous else op.scheme
  }

  /** The vault's scheme at the end. */
  function SchemeAtEnd(before: State, op: Op, chosen: Scheme, wrote: bool, end: ImportEnd): Scheme
    requires op.ImportOp?
  {
    if !wrote then chosen else if end.TakenBack? then before.scheme else op.scheme
  }

  lemma SettingsStep(before: State, s: State, op: Op, chosen: Scheme, wrote: bool, step: Step)
    requires op.ImportOp? && AfterSettings(before, s, op, chosen, wrote)
    requires Possible(s, step) && IsLocalStep(step)
    ensures var t, end, now := Apply(s, step), EndOf(s, [step]), wrote || WritesScheme(s, step);
            if end.Running? then AfterSettings(before, t, op, chosen, now)
            else t.flight.Resting? && t.storedScheme == SchemeAtEnd(before, op, chosen, now, end)
  {
    assert [step][1..] == [];
  }

  lemma {:induction false} RestingSchemeStays(s: State, steps: seq<Step>)
    requires s.flight.Resting? && PossibleRun(s, steps) && forall step :: step in steps ==> IsLocalStep(step)
    ensures Run(s, steps).storedScheme == s.storedScheme && !Overwrites(s, steps)
    decreases |steps|
  {
    if steps != [] {
      RestingStep(s, steps[0]);
      RestingSchemeStays(Apply(s, steps[0]), steps[1..]);
    }
  }

  lemma {:induction false} SettingsGoOn(before: State, s: State, op: Op, chosen: Scheme, wrote: bool, steps: seq<Step>)
    requires op.ImportOp? && AfterSettings(before, s, op, chosen, wrote)
    requires PossibleRun(s, steps) && forall step :: step in steps ==> IsLocalStep(step)
    ensures var end := EndOf(s, steps);
            !end.Running? ==>
              Run(s, steps).storedScheme == SchemeAtEnd(before, op, chosen, wrote || Overwrites(s, steps), end)
    decreases |steps|
  {
    if steps != [] {
      SettingsStep(before, s, op, chosen, wrote, steps[0]);
      var t, end := Apply(s, steps[0]), EndOf(s, [steps[0]]);
      assert [steps[0]][1..] == [];
      if end.Running? {
        SettingsGoOn(before, t, op, chosen, wrote || WritesScheme(s, steps[0]), steps[1..]);
      } else {
        RestingSchemeStays(t, steps[1..]);
      }
    }
  }

  /**
   * The settings write a scheme outside the queue. One that the vault performs while an import is at work
   * is what the vault ends with if and only if the import writes no scheme after it, or the same one.
   */
  lemma SettingsSurviveIff(s: State, first: seq<Step>, chosen: Scheme, second: seq<Step>)
    requires Possible(s, Begin) && s.queue[0].ImportOp?
    requires PossibleRun(OnBegin(s), first) && EndOf(OnBegin(s), first).Running?
    requires PossibleRun(Apply(Run(OnBegin(s), first), SettingsWrite(chosen)), second)
    requires forall step :: step in first || step in second ==> IsLocalStep(step)
    ensures var written := Apply(Run(OnBegin(s), first), SettingsWrite(chosen));
            var end := EndOf(written, second);
            !end.Running? ==>
              (Run(written, second).storedScheme == chosen
               <==> !Overwrites(written, second) || chosen == (if end.TakenBack? then s.scheme else s.queue[0].scheme))
  {
    ImportGoesOn(s, OnBegin(s), s.queue[0], first);
    SettingsGoOn(s, Apply(Run(OnBegin(s), first), SettingsWrite(chosen)), s.queue[0], chosen, false, second);
  }

  /** The screen while the import is at work and nothing is read. */
  predicate ScreenFits(before: State, s: State, op: Op)
    requires op.ImportOp?
  {
    s.shown == before.shown && s.scheme == if s.flight.WritingScheme? then before.scheme else op.scheme
  }

  predicate ScreenAfter(before: State, s: State, op: Op, end: ImportEnd)
    requires op.ImportOp?
  {
    s.shown == (if end.Done? then op.appearance else before.shown)
    && s.scheme == if end.Done? || end.HalfDone? then op.scheme else before.scheme
  }

  lemma {:induction false} RestingScreenStays(before: State, s: State, op: Op, steps: seq<Step>, end: ImportEnd)
    requires op.ImportOp? && s.flight.Resting? && ScreenAfter(before, s, op, end)
    requires WriteRun(s, steps) && PossibleRun(s, steps) && forall step :: step in steps ==> IsLocalStep(step)
    ensures ScreenAfter(before, Run(s, steps), op, end)
    decreases |steps|
  {
    if steps != [] {
      RestingStep(s, steps[0]);
      RestingScreenStays(before, Apply(s, steps[0]), op, steps[1..], end);
    }
  }

  lemma {:induction false} ScreenGoesOn(before: State, s: State, op: Op, steps: seq<Step>)
    requires op.ImportOp? && VaultFits(before, s, op) && ScreenFits(before, s, op)
    requires WriteRun(s, steps) && PossibleRun(s, steps) && forall step :: step in steps ==> IsLocalStep(step)
    ensures var end := EndOf(s, steps); !end.Running? ==> ScreenAfter(before, Run(s, steps), op, end)
    decreases |steps|
  {
    if steps != [] {
      ImportStep(before, s, op, steps[0]);
      var t, end := Apply(s, steps[0]), EndOf(s, [steps[0]]);
      assert [steps[0]][1..] == [];
      if end.Running? {
        ScreenGoesOn(before, t, op, steps[1..]);
      } else {
        RestingScreenStays(before, t, op, steps[1..], end);
      }
    }
  }

  /** With no read in between, the screen shows both new, both old, or, half done, the new scheme alone. */
  lemma ImportShows(s: State, steps: seq<Step>)
    requires Possible(s, Begin) && s.queue[0].ImportOp?
    requires WriteRun(OnBegin(s), steps) && PossibleRun(OnBegin(s), steps)
    requires forall step :: step in steps ==> IsLocalStep(step)
    ensures var end := EndOf(OnBegin(s), steps);
            !end.Running? ==> ScreenAfter(s, Run(OnBegin(s), steps), s.queue[0], end)
  {
    ScreenGoesOn(s, OnBegin(s), s.queue[0], steps);
  }

  /** The steps of an import whose second write fails and whose compensation succeeds. */
  const UNDONE := [Begin, Commit, Continue, WriteFails, Commit, Continue]

  lemma UndoneRun(s: State)
    requires Possible(s, Begin) && s.queue[0].ImportOp?
    ensures PossibleRun(s, UNDONE)
    ensures Run(s, UNDONE) == s.(queue := s.queue[1..], storedScheme := s.scheme)
  {
    var op := s.queue[0];
    var s1 := Apply(s, Begin);
    var s2 := Apply(s1, Commit);
    var s3 := Apply(s2, Continue);
    assert s3.flight == Writing(op, op.appearance, s.scheme, false);
    var s4 := Apply(s3, WriteFails);
    var s5 := Apply(s4, Commit);
    var s6 := Apply(s5, Continue);
    assert s6 == s.(queue := s.queue[1..], storedScheme := s.scheme);
    RunOne(s5, Continue, []);
    RunOne(s4, Commit, [Continue] + []);
    RunOne(s3, WriteFails, [Commit] + ([Continue] + []));
    RunOne(s2, Continue, [WriteFails] + ([Commit] + ([Continue] + [])));
    RunOne(s1, Commit, [Continue] + ([WriteFails] + ([Commit] + ([Continue] + []))));
    RunOne(s, Begin, [Commit] + ([Continue] + ([WriteFails] + ([Commit] + ([Continue] + [])))));
    assert [Begin] + ([Commit] + ([Continue] + ([WriteFails] + ([Commit] + ([Continue] + []))))) == UNDONE;
  }

  const SCHEME_UNREAD := [CallSchemeLoad, SchemeReadFails(0)]

  lemma SchemeUnread(s: State)
    requires s.scheme == System && s.schemeReads == []
    ensures PossibleRun(s, SCHEME_UNREAD) && Run(s, SCHEME_UNREAD) == s
  {
    var s1 := Apply(s, CallSchemeLoad);
    assert s1 == s.(schemeReads := [None]);
    assert Apply(s1, SchemeReadFails(0)) == s;
    RunOne(s1, SchemeReadFails(0), []);
    RunOne(s, CallSchemeLoad, [SchemeReadFails(0)] + []);
    assert [CallSchemeLoad] + ([SchemeReadFails(0)] + []) == SCHEME_UNREAD;
  }

  /**
   * Where the compensation goes wrong: the load of the colour scheme failed, so the system's is on screen.
   * An import that fails and is taken back then leaves the vault with the system's scheme, neither the
   * old nor the new one.
   */
  lemma ImportLosesStoredScheme(s: State, a: Appearance, c: Scheme)
    requires Fresh(s) && IsCanonical(a) && s.storedScheme != System && c != System
    ensures var run := SCHEME_UNREAD + ([CallImport(a, c)] + UNDONE);
            PossibleRun(s, run) && Run(s, run).flight.Resting?
            && Run(s, run).storedScheme != s.storedScheme && Run(s, run).storedScheme != c
  {
    var called := Apply(s, CallImport(a, c));
    SchemeUnread(s);
    UndoneRun(called);
    RunOne(s, CallImport(a, c), UNDONE);
    RunSplit(s, SCHEME_UNREAD, [CallImport(a, c)] + UNDONE);
  }

  // ---- the module state -------------------------------------------------------------------------------

  /** The state of `useAppearance` and `useColorScheme`, with the vault's two values, changed stretch by stretch. */
  class AppearanceState {
    var stored: Stored
    var storedScheme: Scheme
    var shown: Appearance
    var scheme: Scheme
    var generation: nat
    var queue: seq<Op>
    var flight: Flight
    var pending: seq<Read>
    var schemeReads: seq<Option<Scheme>>
    var schemeSets: seq<Scheme>

    function View(): State
      reads this
    {
      State(stored, storedScheme, shown, scheme, generation, queue, flight, pending, schemeReads, schemeSets)
    }

    /** What is queued, written, read and shown fits together. */
    ghost predicate Valid()
      reads this
    {
      QueueInv(View())
    }

    constructor (stored: Stored, storedScheme: Scheme)
      ensures Valid() && Fresh(View()) && this.stored == stored && this.storedScheme == storedScheme
    {
      DefaultIsCanonical();
      this.stored, this.storedScheme, shown, scheme := stored, storedScheme, DEFAULT_APPEARANCE, System;
      generation, queue, flight, pending, schemeReads, schemeSets := 0, [], Resting, [], [], [];
    }

    /** Returns whether the choices were refused as invalid. */
    method SetAsync(patch: RawPatch) returns (refused: bool)
      requires Valid()
      modifies this`queue
      ensures Valid() && View() == Apply(old(View()), CallSet(patch))
      ensures refused <==> Checked(patch).None?
    {
      StepKeepsInv(View(), CallSet(patch));
      var changes := Checked(patch);
      if changes.None? {
        return true;
      }
      queue := queue + [SetOp(changes.value)];
      return false;
    }

    method ResetAsync()
      requires Valid()
      modifies this`queue
      ensures Valid() && View() == Apply(old(View()), CallReset)
    {
      StepKeepsInv(View(), CallReset);
      queue := queue + [ResetOp];
    }

    method ImportAsync(appearance: Appearance, colorScheme: Scheme)
      requires IsCanonical(appearance)
      requires Valid()
      modifies this`queue
      ensures Valid() && View() == Apply(old(View()), CallImport(appearance, colorScheme))
    {
      StepKeepsInv(View(), CallImport(appearance, colorScheme));
      queue := queue + [ImportOp(appearance, colorScheme)];
    }

    /** The next queued operation runs up to its first write. */
    method BeginNext()
      requires Possible(View(), Begin)
      requires Valid()
      modifies this`queue, this`flight
      ensures Valid() && View() == Apply(old(View()), Begin)
    {
      StepKeepsInv(View(), Begin);
      var op := queue[0];
      queue := queue[1..];
      match op
      case ImportOp(_, _) => flight := WritingScheme(op, scheme, false);
      case SetOp(changes) => flight := Writing(op, Merge(shown, changes), scheme, false);
      case ResetOp => flight := Writing(op, DEFAULT_APPEARANCE, scheme, false);
    }

    /** The operation goes on after a performed write. */
    method Resume()
      requires Possible(View(), Continue)
      requires Valid()
      modifies this`generation, this`shown, this`scheme, this`flight
      ensures Valid() && View() == Apply(old(View()), Continue)
    {
      StepKeepsInv(View(), Continue);
      match flight
      case Writing(_, next, _, _) =>
        generation := generation + 1;
        shown := next;
        flight := Resting;
      case WritingScheme(op, previous, _) =>
        scheme := SchemeOf(op, scheme);
        flight := Writing(op, Written(op, shown), previous, false);
      case Undoing(_, previous, _) =>
        scheme := previous;
        flight := Resting;
    }

    method WriteFailed()
      requires Possible(View(), WriteFails)
      requires Valid()
      modifies this`flight
      ensures Valid() && View() == Apply(old(View()), WriteFails)
    {
      StepKeepsInv(View(), WriteFails);
      if flight.Writing? && flight.op.ImportOp? {
        flight := Undoing(flight.op, flight.previous, false);
      } else {
        flight := Resting;
      }
    }

    /** `loadAsync` up to its await. */
    method LoadAsync()
      requires Valid()
      modifies this`shown, this`pending
      ensures Valid() && View() == Apply(old(View()), CallLoad)
    {
      StepKeepsInv(View(), CallLoad);
      shown := DEFAULT_APPEARANCE;
      pending := pending + [Read(true, generation, None)];
    }

    /** A read goes on. */
    method ReadReturned(i: nat)
      requires Possible(View(), Return(i))
      requires Valid()
      modifies this`shown, this`pending, this`generation
      ensures Valid() && View() == Apply(old(View()), Return(i))
    {
      StepKeepsInv(View(), Return(i));
      var read := pending[i];
      pending := pending[..i] + pending[i + 1..];
      if read.at != generation {
        return;
      }
      ShowRead(read.load, Parse(read.captured.value));
    }

    /** A read that is not outdated is shown; a refresh counts, and changes the screen only if it must. */
    method ShowRead(load: bool, next: Appearance)
      modifies this`shown, this`generation
      ensures generation == (if load then old(generation) else old(generation) + 1)
      ensures shown == if load || Serialize(next) != Serialize(old(shown)) then next else old(shown)
    {
      if load {
        shown := next;
        return;
      }
      generation := generation + 1;
      if Serialize(next) == Serialize(shown) {
        return;
      }
      shown := next;
    }

    /** `refreshAsync` up to its await. */
    method RefreshAsync()
      requires Valid()
      modifies this`pending
      ensures Valid() && View() == Apply(old(View()), CallRefresh)
    {
      StepKeepsInv(View(), CallRefresh);
      pending := pending + [Read(false, generation, None)];
    }

    /** The vault performs the write in flight. */
    method VaultWrites()
      requires Valid() && Possible(View(), Commit)
      modifies this`stored, this`storedScheme, this`flight
      ensures Valid() && View() == Apply(old(View()), Commit)
    {
      StepKeepsInv(View(), Commit);
      match flight
      case Writing(op, next, previous, _) =>
        stored := Serialize(next);
        flight := Writing(op, next, previous, true);
      case WritingScheme(op, previous, _) =>
        storedScheme := SchemeOf(op, storedScheme);
        flight := WritingScheme(op, previous, true);
      case Undoing(op, previous, _) =>
        storedScheme := previous;
        flight := Undoing(op, previous, true);
    }

    /** The vault answers a read, or fails to. */
    method VaultAnswers(i: nat, answered: bool)
      requires Valid() && Possible(View(), Serve(i))
      modifies this`pending
      ensures Valid() && View() == Apply(old(View()), if answered then Serve(i) else ReadFails(i))
    {
      StepKeepsInv(View(), if answered then Serve(i) else ReadFails(i));
      pending := if answered then pending[i := pending[i].(captured := Some(stored))] else Dropped(pending, i);
    }

    /** `useColorScheme` reads the scheme beside all this. */
    method ReadScheme(step: Step)
      requires Valid() && Possible(View(), step) && IsSchemeStep(step) && !step.SettingsWrite? && !step.SettingsShow?
      modifies this`scheme, this`schemeReads
      ensures Valid() && View() == Apply(old(View()), step)
    {
      StepKeepsInv(View(), step);
      ghost var before := View();
      if step.CallSchemeLoad? {
        scheme := System;
      } else if step.ReturnScheme? {
        scheme := schemeReads[step.i].value;
      }
      if step.CallSchemeLoad? || step.CallSchemeRefresh? {
        schemeReads := schemeReads + [None];
      } else if step.ServeScheme? {
        schemeReads := schemeReads[step.i := Some(storedScheme)];
      } else {
        schemeReads := Dropped(schemeReads, step.i);
      }
      assert View() == before.(scheme := scheme, schemeReads := schemeReads);
    }

    /** `useColorScheme.setAsync` called by the settings: the vault's write. */
    method SettingsWrites(chosen: Scheme)
      requires Valid()
      modifies this`storedScheme, this`schemeSets
      ensures Valid() && View() == Apply(old(View()), SettingsWrite(chosen))
    {
      StepKeepsInv(View(), SettingsWrite(chosen));
      storedScheme := chosen;
      schemeSets := schemeSets + [chosen];
    }

    /** And what follows it. */
    method SettingsGoesOn(i: nat)
      requires Valid() && Possible(View(), SettingsShow(i))
      modifies this`scheme, this`schemeSets
      ensures Valid() && View() == Apply(old(View()), SettingsShow(i))
    {
      StepKeepsInv(View(), SettingsShow(i));
      scheme := schemeSets[i];
      schemeSets := Dropped(schemeSets, i);
    }

    method ClearAppearance()
      requires Valid()
      modifies this`shown
      ensures Valid() && View() == Apply(old(View()), Clear)
    {
      StepKeepsInv(View(), Clear);
      shown := DEFAULT_APPEARANCE;
    }

    method Perform(step: Step)
      requires Valid() && Possible(View(), step) && !step.Remote?
      modifies this
      ensures Valid() && View() == Apply(old(View()), step)
    {
      if step.SettingsWrite? {
        SettingsWrites(step.chosen);
      } else if step.SettingsShow? {
        SettingsGoesOn(step.i);
      } else if IsSchemeStep(step) {
        ReadScheme(step);
      } else {
        match step
        case CallSet(patch) => var refused := SetAsync(patch);
        case CallReset => ResetAsync();
        case CallImport(a, c) => ImportAsync(a, c);
        case Begin => BeginNext();
        case Commit => VaultWrites();
        case Continue => Resume();
        case WriteFails => WriteFailed();
        case CallLoad => LoadAsync();
        case CallRefresh => RefreshAsync();
        case Serve(i) => VaultAnswers(i, true);
        case Return(i) => ReadReturned(i);
        case ReadFails(i) => VaultAnswers(i, false);
        case Clear => ClearAppearance();
        case _ =>
      }
    }

    /** Any interleaving without another device runs to the state the model gives, and keeps `Valid`. */
    method Play(steps: seq<Step>)
      requires Valid() && PossibleRun(View(), steps) && forall step :: step in steps ==> !step.Remote?
      modifies this
      ensures Valid() && View() == Run(old(View()), steps)
    {
      ghost var start := View();
      for i := 0 to |steps|
        invariant Valid() && PossibleRun(View(), steps[i..])
        invariant Run(View(), steps[i..]) == Run(start, steps)
      {
        assert steps[i..][0] == steps[i] && steps[i..][1..] == steps[i + 1..];
        Perform(steps[i]);
      }
    }
  }
}
