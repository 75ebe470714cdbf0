/**
 * A send whose answer is lost and repeated: the page repeats the identical request, and whatever
 * order the backend handles the repetitions in, the message is written once.
 */
module ExactlyOnce {
  import opened Base
  import opened ChatTypes
  import opened SendAdmission
  import opened Attempts
  import System = ChatSystem

  // ---- the backend's side -------------------------------------------------------------------------

  datatype Refusal = BlankKey | Busy | NoModel | KeyConflict | NoSuchThread | DatabaseError | StartFailed

  /** Where one `send_message` call is; `started` tells an answer with a new turn from a repeated answer. */
  datatype Stage =
    | Deciding
    | Admitted
    | Staged(row: Accepted, isNew: bool)
    | Answered(answer: Accepted, started: bool)
    | Refused(why: Refusal)

  datatype SendCall = SendCall(request: Request, owns: bool, stage: Stage)

  /** Who holds the one operation lock: nobody, a call or its turn, or something else. */
  datatype Holder = Free | ByCall(index: nat) | ByOther

  datatype Backend = Backend(store: Store, holder: Holder, calls: seq<SendCall>)

  datatype Action =
    | Arrive(request: Request)
    | Decide(i: nat)                              // the first lookup, outside the transaction
    | Persist(i: nat, loaded: bool, minted: ThreadId)
    | Launch(i: nat)
    | RollBack(i: nat)                            // the adapter or the task did not start
    | Abandon(i: nat)                             // a read or write failed; nothing is undone
    | TurnOver(i: nat)
    | TakeLock
    | GiveLock
    | DeleteThread(thread: ThreadId)

  predicate IsBlankKey(key: string) {
    forall i :: 0 <= i < |key| ==> IsWhiteSpace(key[i])
  }

  predicate At(b: Backend, i: nat) {
    i < |b.calls|
  }

  predicate Enabled(b: Backend, action: Action) {
    match action
    case Arrive(_) => true
    case Decide(i) => At(b, i) && b.calls[i].stage.Deciding?
    case Persist(i, _, _) => At(b, i) && b.calls[i].stage.Admitted?
    case Launch(i) => At(b, i) && b.calls[i].stage.Staged?
    case RollBack(i) => At(b, i) && b.calls[i].stage.Staged?
    case Abandon(i) =>
      At(b, i) && (b.calls[i].stage.Deciding? || b.calls[i].stage.Admitted? || b.calls[i].stage.Staged?)
    case TurnOver(i) => At(b, i) && b.holder == ByCall(i) && b.calls[i].stage.Answered?
    case TakeLock => b.holder.Free?
    case GiveLock => b.holder.ByOther?
    case DeleteThread(_) => true
  }

  function Moved(b: Backend, i: nat, stage: Stage): seq<SendCall>
    requires At(b, i)
  {
    b.calls[i := b.calls[i].(stage := stage)]
  }

  function Released(b: Backend, i: nat): Holder {
    if b.holder == ByCall(i) then Free else b.holder
  }

  function AfterArrival(b: Backend, request: Request): Backend {
    if IsBlankKey(request.key) then b.(calls := b.calls + [SendCall(request, false, Refused(BlankKey))])
    else
      b.(calls := b.calls + [SendCall(request, b.holder.Free?, Deciding)],
         holder := if b.holder.Free? then ByCall(|b.calls|) else b.holder)
  }

  function Decided(b: Backend, c: SendCall): Stage {
    match Resolve(b.store, c.request.key, c.request.threadId, c.request.content)
    case Mismatch => Refused(KeyConflict)
    case Duplicate(earlier) => Answered(earlier, false)
    case Fresh(_, _) => if c.owns then Admitted else Refused(Busy)
  }

  function StageOf(outcome: Persisted, isNew: bool): Stage {
    match outcome
    case Written(row) => Staged(row, isNew)
    case Replayed(earlier) => Answered(earlier, false)
    case Conflict => Refused(KeyConflict)
    case UnknownThread(_) => Refused(NoSuchThread)
    case Rejected => Refused(DatabaseError)
  }

  function AfterTransaction(b: Backend, i: nat, minted: ThreadId): Backend
    requires At(b, i)
  {
    var r := b.calls[i].request;
    var outcome := Outcome(b.store, r.key, r.threadId, r.content, minted);
    Backend(AfterPersist(b.store, r.key, r.content, outcome),
            if outcome.Written? then b.holder else Released(b, i),
            Moved(b, i, StageOf(outcome, r.threadId.None?)))
  }

  function OfOtherThreads(rows: seq<Stored>, thread: ThreadId): (r: seq<Stored>)
    ensures forall x :: x in r ==> x in rows
  {
    if rows == [] then []
    else
      var rest := OfOtherThreads(rows[1..], thread);
      assert rows == [rows[0]] + rows[1..];
      if rows[0].threadId == thread then rest else [rows[0]] + rest
  }

  function Act(b: Backend, action: Action): Backend
    requires Enabled(b, action)
  {
    match action
    case Arrive(request) => AfterArrival(b, request)
    case Decide(i) =>
      var stage := Decided(b, b.calls[i]);
      b.(calls := Moved(b, i, stage), holder := if stage.Admitted? then b.holder else Released(b, i))
    case Persist(i, loaded, minted) =>
      if loaded then AfterTransaction(b, i, minted)
      else b.(calls := Moved(b, i, Refused(NoModel)), holder := Released(b, i))
    case Launch(i) => b.(calls := Moved(b, i, Answered(b.calls[i].stage.row, true)))
    case RollBack(i) =>
      Backend(AfterCleanUp(b.store, b.calls[i].stage.row, b.calls[i].stage.isNew),
              Released(b, i),
              Moved(b, i, Refused(StartFailed)))
    case Abandon(i) => b.(calls := Moved(b, i, Refused(DatabaseError)), holder := Released(b, i))
    case TurnOver(_) => b.(holder := Free)
    case TakeLock => b.(holder := ByOther)
    case GiveLock => b.(holder := Free)
    case DeleteThread(t) =>
      if t !in b.store.threads then b
      else b.(store := Store(b.store.threads - {t}, OfOtherThreads(b.store.rows, t)))
  }

  // ---- what holds in every order ------------------------------------------------------------------

  /** A row of a send on the wire is that send's row. */
  ghost predicate OwnRow(row: Stored, r: Request) {
    row.key == Some(r.key) ==> row.id == UserId(r.key) && Agrees(row, r.threadId, r.content)
  }

  /** An answer names the ids its key gives, in the requested conversation. */
  predicate OwnAnswer(a: Accepted, r: Request) {
    a.userId == UserId(r.key) && a.assistantId == AssistantId(r.key) && (r.threadId.Some? ==> r.threadId == Some(a.threadId))
  }

  predicate StageFits(stage: Stage, r: Request) {
    match stage
    case Staged(row, _) => OwnAnswer(row, r)
    case Answered(answer, _) => OwnAnswer(answer, r)
    case Refused(why) => !why.KeyConflict?
    case _ => true
  }

  ghost predicate OwnRows(rows: seq<Stored>, wire: seq<Request>) {
    Keyed(rows) && forall row, r :: row in rows && r in wire ==> OwnRow(row, r)
  }

  ghost predicate OwnCalls(calls: seq<SendCall>, wire: seq<Request>) {
    forall c :: c in calls ==> c.request in wire && StageFits(c.stage, c.request)
  }

  ghost predicate BackendInv(b: Backend, wire: seq<Request>) {
    OwnRows(b.store.rows, wire) && OwnCalls(b.calls, wire)
  }

  lemma ResolveFits(store: Store, r: Request, wire: seq<Request>)
    requires OwnRows(store.rows, wire) && r in wire
    ensures var found := Resolve(store, r.key, r.threadId, r.content);
            !found.Mismatch? && (found.Duplicate? ==> OwnAnswer(found.earlier, r))
  {
    if HasKey(store.rows, r.key) {
      var row := ByKey(store.rows, r.key);
      assert OwnRow(row, r);
      assert |UserId(r.key).uuid| == |r.key| + 5 && |LegacyUserId(r.key).uuid| == |r.key|;
    }
  }

  lemma SameKeySameRequest(wire: seq<Request>, r: Request, q: Request)
    requires OneRequestPerKey(wire) && r in wire && q in wire
    ensures r.key == q.key ==> r == q
  {
    var i :| 0 <= i < |wire| && wire[i] == r;
    var j :| 0 <= j < |wire| && wire[j] == q;
  }

  lemma MovedFits(b: Backend, i: nat, stage: Stage, wire: seq<Request>)
    requires At(b, i) && OwnCalls(b.calls, wire) && StageFits(stage, b.calls[i].request)
    ensures OwnCalls(Moved(b, i, stage), wire)
  {
    assert b.calls[i] in b.calls;
  }

  lemma PersistFits(store: Store, r: Request, minted: ThreadId, wire: seq<Request>)
    requires OneRequestPerKey(wire) && OwnRows(store.rows, wire) && r in wire
    ensures var outcome := Outcome(store, r.key, r.threadId, r.content, minted);
            OwnRows(AfterPersist(store, r.key, r.content, outcome).rows, wire)
            && StageFits(StageOf(outcome, r.threadId.None?), r)
  {
    ResolveFits(store, r, wire);
    WrittenKeepsKeyed(store, r.key, r.threadId, r.content, minted);
    var outcome := Outcome(store, r.key, r.threadId, r.content, minted);
    if outcome.Written? {
      var row := UserRow(store, r.key, r.content, outcome.sent);
      forall q | q in wire ensures OwnRow(row, q) {
        SameKeySameRequest(wire, r, q);
      }
      assert forall x :: x in store.rows + [row] ==> x in store.rows || x == row;
    }
  }

  lemma KeyedCons(x: Stored, kept: seq<Stored>, all: seq<Stored>)
    requires Keyed([x] + all) && Keyed(kept) && forall y :: y in kept ==> y in all
    ensures Keyed([x] + kept)
  {
    forall y | y in kept ensures y.id != x.id && (x.key.Some? ==> y.key != x.key) {
      var k :| 0 <= k < |all| && all[k] == y;
      assert ([x] + all)[k + 1] == y && ([x] + all)[0] == x;
    }
  }

  lemma KeyedTail(rows: seq<Stored>)
    requires rows != [] && Keyed(rows)
    ensures Keyed(rows[1..]) && rows == [rows[0]] + rows[1..]
  {
  }

  lemma CleanUpKeepsKeyed(rows: seq<Stored>, id: MessageId)
    requires Keyed(rows)
    ensures Keyed(WithoutId(rows, id))
    decreases |rows|
  {
    if rows != [] {
      KeyedTail(rows);
      CleanUpKeepsKeyed(rows[1..], id);
      KeyedCons(rows[0], WithoutId(rows[1..], id), rows[1..]);
    }
  }

  lemma DeletionKeepsKeyed(rows: seq<Stored>, thread: ThreadId)
    requires Keyed(rows)
    ensures Keyed(OfOtherThreads(rows, thread))
    decreases |rows|
  {
    if rows != [] {
      KeyedTail(rows);
      DeletionKeepsKeyed(rows[1..], thread);
      KeyedCons(rows[0], OfOtherThreads(rows[1..], thread), rows[1..]);
    }
  }

  lemma ActionKeepsInv(b: Backend, action: Action, wire: seq<Request>)
    requires OneRequestPerKey(wire) && BackendInv(b, wire) && Enabled(b, action)
    requires action.Arrive? ==> action.request in wire
    ensures BackendInv(Act(b, action), wire)
  {
    match action
    case Decide(i) =>
      assert b.calls[i] in b.calls;
      ResolveFits(b.store, b.calls[i].request, wire);
      MovedFits(b, i, Decided(b, b.calls[i]), wire);
    case Persist(i, loaded, minted) =>
      assert b.calls[i] in b.calls;
      var r := b.calls[i].request;
      PersistFits(b.store, r, minted, wire);
      MovedFits(b, i, Refused(NoModel), wire);
      MovedFits(b, i, StageOf(Outcome(b.store, r.key, r.threadId, r.content, minted), r.threadId.None?), wire);
    case Launch(i) =>
      assert b.calls[i] in b.calls;
      MovedFits(b, i, Answered(b.calls[i].stage.row, true), wire);
    case RollBack(i) =>
      CleanUpKeepsKeyed(b.store.rows, b.calls[i].stage.row.userId);
      MovedFits(b, i, Refused(StartFailed), wire);
    case Abandon(i) => MovedFits(b, i, Refused(DatabaseError), wire);
    case DeleteThread(t) => DeletionKeepsKeyed(b.store.rows, t);
    case _ =>
  }

  /** Runs of the backend in which every call carries a request from the wire, as often as it likes. */
  predicate Runs(b: Backend, actions: seq<Action>, wire: seq<Request>)
    decreases |actions|
  {
    actions == []
    || (Enabled(b, actions[0])
        && (actions[0].Arrive? ==> actions[0].request in wire)
        && Runs(Act(b, actions[0]), actions[1..], wire))
  }

  function After(b: Backend, actions: seq<Action>, wire: seq<Request>): Backend
    requires Runs(b, actions, wire)
    decreases |actions|
  {
    if actions == [] then b else After(Act(b, actions[0]), actions[1..], wire)
  }

  lemma {:induction false} RunKeepsInv(b: Backend, actions: seq<Action>, wire: seq<Request>)
    requires OneRequestPerKey(wire) && BackendInv(b, wire) && Runs(b, actions, wire)
    ensures BackendInv(After(b, actions, wire), wire)
    decreases |actions|
  {
    if actions != [] {
      ActionKeepsInv(b, actions[0], wire);
      RunKeepsInv(Act(b, actions[0]), actions[1..], wire);
    }
  }

  // ---- one turn per key -----------------------------------------------------------------------------

  function AnswerOf(stage: Stage): Option<Accepted> {
    match stage
    case Staged(row, _) => Some(row)
    case Answered(answer, _) => Some(answer)
    case _ => None
  }

  /** Calls that wrote the row themselves: only they may start a turn. */
  predicate Began(c: SendCall) {
    c.stage.Staged? || (c.stage.Answered? && c.stage.started)
  }

  /** The row an answer names is there. */
  ghost predicate Recorded(rows: seq<Stored>, key: string, a: Accepted) {
    exists row :: row in rows && row.key == Some(key) && row.id == a.userId && row.threadId == a.threadId
  }

  /** Two calls of the key did not both begin. */
  ghost predicate OneBeginning(calls: seq<SendCall>, key: string) {
    forall i, j :: 0 <= i < j < |calls| && calls[i].request.key == key && calls[j].request.key == key ==>
      !(Began(calls[i]) && Began(calls[j]))
  }

  /** The begun call's row is there. */
  ghost predicate BeginningRecorded(b: Backend, key: string) {
    forall c :: c in b.calls && c.request.key == key && Began(c) ==>
      Recorded(b.store.rows, key, AnswerOf(c.stage).value)
  }

  ghost predicate BeganInv(b: Backend, key: string) {
    OneBeginning(b.calls, key) && BeginningRecorded(b, key)
  }

  /** Every answer to the key still names a row that is there. */
  ghost predicate AnswersRecorded(b: Backend, key: string) {
    forall c :: c in b.calls && c.request.key == key && AnswerOf(c.stage).Some? ==>
      Recorded(b.store.rows, key, AnswerOf(c.stage).value)
  }

  lemma ResolveRecorded(store: Store, key: string, thread: Option<ThreadId>, content: string)
    ensures var found := Resolve(store, key, thread, content);
            found.Duplicate? ==> Recorded(store.rows, key, found.earlier)
  {
  }

  lemma RecordedHasKey(rows: seq<Stored>, key: string, a: Accepted)
    requires Recorded(rows, key, a)
    ensures HasKey(rows, key)
  {
    var row :| row in rows && row.key == Some(key);
    var i :| 0 <= i < |rows| && rows[i] == row;
  }

  lemma RecordedGrows(rows: seq<Stored>, row: Stored, key: string, a: Accepted)
    requires Recorded(rows, key, a)
    ensures Recorded(rows + [row], key, a)
  {
    var x :| x in rows && x.key == Some(key) && x.id == a.userId && x.threadId == a.threadId;
    assert x in rows + [row];
  }

  /** Nothing of the key's rows is lost. */
  ghost predicate KeepsRows(b: Backend, next: Backend, key: string) {
    forall a :: Recorded(b.store.rows, key, a) ==> Recorded(next.store.rows, key, a)
  }

  /** A call moves to a stage that begins no second turn. */
  lemma MovedOnce(b: Backend, i: nat, stage: Stage, next: Backend, key: string)
    requires At(b, i) && next.calls == Moved(b, i, stage) && KeepsRows(b, next, key)
    requires Began(b.calls[i].(stage := stage)) ==> Began(b.calls[i]) && AnswerOf(stage) == AnswerOf(b.calls[i].stage)
    ensures OneBeginning(b.calls, key) ==> OneBeginning(next.calls, key)
    ensures BeganInv(b, key) ==> BeganInv(next, key)
    ensures AnswersRecorded(b, key)
            && (b.calls[i].request.key == key && AnswerOf(stage).Some? ==>
                  Recorded(b.store.rows, key, AnswerOf(stage).value))
            ==> AnswersRecorded(next, key)
  {
    assert b.calls[i] in b.calls;
    assert forall c :: c in next.calls ==> c in b.calls || c == b.calls[i].(stage := stage);
  }

  /** The transaction that writes a row keeps what other keys began, and begins its own key's one turn. */
  lemma WrittenOnce(b: Backend, i: nat, row: Stored, accepted: Accepted, isNew: bool, next: Backend, key: string)
    requires At(b, i) && !HasKey(b.store.rows, b.calls[i].request.key)
    requires next.calls == Moved(b, i, Staged(accepted, isNew)) && next.store.rows == b.store.rows + [row]
    requires row.key == Some(b.calls[i].request.key) && row.id == accepted.userId && row.threadId == accepted.threadId
    ensures BeganInv(b, key) ==> BeganInv(next, key)
    ensures AnswersRecorded(b, key) ==> AnswersRecorded(next, key)
  {
    var own := b.calls[i].request.key;
    forall a | Recorded(b.store.rows, key, a) ensures key != own && Recorded(next.store.rows, key, a) {
      RecordedHasKey(b.store.rows, key, a);
      RecordedGrows(b.store.rows, row, key, a);
    }
    assert row in next.store.rows;
    assert forall c :: c in next.calls ==> c in b.calls || c == b.calls[i].(stage := Staged(accepted, isNew));
    assert forall j :: 0 <= j < |b.calls| ==> b.calls[j] in b.calls;
  }

  lemma PersistOnce(b: Backend, i: nat, minted: ThreadId, key: string)
    requires At(b, i) && b.calls[i].stage.Admitted?
    ensures BeganInv(b, key) ==> BeganInv(AfterTransaction(b, i, minted), key)
    ensures AnswersRecorded(b, key) ==> AnswersRecorded(AfterTransaction(b, i, minted), key)
  {
    var r := b.calls[i].request;
    var outcome := Outcome(b.store, r.key, r.threadId, r.content, minted);
    var next := AfterTransaction(b, i, minted);
    if outcome.Written? {
      WrittenOnce(b, i, UserRow(b.store, r.key, r.content, outcome.sent), outcome.sent, r.threadId.None?, next, key);
    } else {
      ResolveRecorded(b.store, r.key, r.threadId, r.content);
      MovedOnce(b, i, StageOf(outcome, r.threadId.None?), next, key);
    }
  }

  // ---- what takes rows away ---------------------------------------------------------------------------

  lemma KeptWithoutId(rows: seq<Stored>, id: MessageId, key: string, a: Accepted)
    ensures Recorded(WithoutId(rows, id), key, a) <==> Recorded(rows, key, a) && a.userId != id
  {
  }

  lemma UserIdsDiffer(k: string, l: string)
    requires k != l
    ensures UserId(k) != UserId(l)
  {
    var a, b := "user:" + k, "user:" + l;
    assert a[5..] == k && b[5..] == l;
  }

  lemma KeptOfOtherThreads(rows: seq<Stored>, t: ThreadId, key: string, a: Accepted)
    ensures Recorded(OfOtherThreads(rows, t), key, a) <==> Recorded(rows, key, a) && a.threadId != t
  {
    OtherThreadsMeaning(rows, t);
  }

  lemma OtherThreadsMeaning(rows: seq<Stored>, t: ThreadId)
    ensures forall x :: x in OfOtherThreads(rows, t) <==> x in rows && x.threadId != t
  {
    if rows != [] {
      OtherThreadsMeaning(rows[1..], t);
      assert rows == [rows[0]] + rows[1..];
    }
  }

  /** Another call of the same key has an answer. */
  predicate AnsweredToo(b: Backend, i: nat)
    requires At(b, i)
  {
    exists j :: 0 <= j < |b.calls| && j != i && b.calls[j].request.key == b.calls[i].request.key
                && AnswerOf(b.calls[j].stage).Some?
  }

  /** What a rollback leaves recorded of a call with an answer: all but its own key. */
  lemma RolledBackRows(b: Backend, i: nat, wire: seq<Request>, c: SendCall)
    requires BackendInv(b, wire) && Enabled(b, RollBack(i)) && c in b.calls && AnswerOf(c.stage).Some?
    ensures Recorded(Act(b, RollBack(i)).store.rows, c.request.key, AnswerOf(c.stage).value)
            <==> Recorded(b.store.rows, c.request.key, AnswerOf(c.stage).value) && c.request.key != b.calls[i].request.key
  {
    assert b.calls[i] in b.calls;
    if c.request.key != b.calls[i].request.key {
      UserIdsDiffer(c.request.key, b.calls[i].request.key);
    }
    KeptWithoutId(b.store.rows, b.calls[i].stage.row.userId, c.request.key, AnswerOf(c.stage).value);
  }

  /** A rollback takes away only its own row: whoever else began keeps it, and its own call has not begun any more. */
  lemma RollBackOnce(b: Backend, i: nat, wire: seq<Request>, key: string)
    requires BackendInv(b, wire) && BeganInv(b, key) && Enabled(b, RollBack(i))
    ensures BeganInv(Act(b, RollBack(i)), key)
  {
    var next := Act(b, RollBack(i));
    assert b.calls[i] in b.calls;
    forall c | c in next.calls && c.request.key == key && Began(c)
      ensures Recorded(next.store.rows, key, AnswerOf(c.stage).value)
    {
      var j :| 0 <= j < |next.calls| && next.calls[j] == c;
      assert j != i && b.calls[j] == c && c in b.calls;
      RolledBackRows(b, i, wire, c);
    }
  }

  /** A rollback leaves every answer to a key true if and only if it is of another key or no other attempt was answered. */
  lemma RollBackKeepsAnswersIff(b: Backend, i: nat, wire: seq<Request>, key: string)
    requires BackendInv(b, wire) && AnswersRecorded(b, key) && Enabled(b, RollBack(i))
    ensures AnswersRecorded(Act(b, RollBack(i)), key) <==> b.calls[i].request.key != key || !AnsweredToo(b, i)
  {
    var next := Act(b, RollBack(i));
    forall j | 0 <= j < |b.calls| && b.calls[j].request.key == key && AnswerOf(b.calls[j].stage).Some?
      ensures Recorded(next.store.rows, key, AnswerOf(b.calls[j].stage).value) <==> key != b.calls[i].request.key
    {
      assert b.calls[j] in b.calls;
      RolledBackRows(b, i, wire, b.calls[j]);
    }
    if b.calls[i].request.key == key && AnsweredToo(b, i) {
      var j :| 0 <= j < |b.calls| && j != i && b.calls[j].request.key == key && AnswerOf(b.calls[j].stage).Some?;
      assert next.calls[j] == b.calls[j] && next.calls[j] in next.calls;
    }
  }

  /** Some answer to the key names the conversation. */
  ghost predicate AnsweredIn(b: Backend, key: string, t: ThreadId) {
    exists c :: c in b.calls && c.request.key == key && AnswerOf(c.stage).Some? && AnswerOf(c.stage).value.threadId == t
  }

  /** The key's turn was begun in the conversation. */
  ghost predicate BegunIn(b: Backend, key: string, t: ThreadId) {
    exists c :: c in b.calls && c.request.key == key && Began(c) && AnswerOf(c.stage).value.threadId == t
  }

  /**
   * Deleting a conversation leaves every answer to a key true, and the row of its begun turn, if and only if
   * the conversation is not there or no such answer, no such turn is in it.
   */
  lemma DeletionKeepsIff(b: Backend, t: ThreadId, key: string)
    ensures AnswersRecorded(b, key) ==>
              (AnswersRecorded(Act(b, DeleteThread(t)), key) <==> t !in b.store.threads || !AnsweredIn(b, key, t))
    ensures BeganInv(b, key) ==>
              (BeganInv(Act(b, DeleteThread(t)), key) <==> t !in b.store.threads || !BegunIn(b, key, t))
  {
    var next := Act(b, DeleteThread(t));
    if t in b.store.threads {
      forall a ensures Recorded(next.store.rows, key, a) <==> Recorded(b.store.rows, key, a) && a.threadId != t {
        KeptOfOtherThreads(b.store.rows, t, key, a);
      }
    }
  }

  /** What the step takes away, no answer to the key names. A caller can tell before the step. */
  ghost predicate Harmless(b: Backend, action: Action, key: string)
    requires Enabled(b, action)
  {
    match action
    case RollBack(i) => b.calls[i].request.key != key || !AnsweredToo(b, i)
    case DeleteThread(t) => t !in b.store.threads || !AnsweredIn(b, key, t)
    case _ => true
  }

  lemma ActionKeepsBeginning(b: Backend, action: Action, wire: seq<Request>, key: string)
    requires BackendInv(b, wire) && BeganInv(b, key) && Enabled(b, action) && !action.DeleteThread?
    ensures BeganInv(Act(b, action), key)
  {
    match action
    case Decide(i) => MovedOnce(b, i, Decided(b, b.calls[i]), Act(b, action), key);
    case Persist(i, loaded, minted) =>
      if loaded {
        PersistOnce(b, i, minted, key);
      } else {
        MovedOnce(b, i, Refused(NoModel), Act(b, action), key);
      }
    case Launch(i) => MovedOnce(b, i, Answered(b.calls[i].stage.row, true), Act(b, action), key);
    case Abandon(i) => MovedOnce(b, i, Refused(DatabaseError), Act(b, action), key);
    case RollBack(i) => RollBackOnce(b, i, wire, key);
    case _ =>
  }

  lemma OtherActionKeepsAnswers(b: Backend, action: Action, key: string)
    requires AnswersRecorded(b, key) && Enabled(b, action) && !action.DeleteThread? && !action.RollBack?
    ensures AnswersRecorded(Act(b, action), key)
  {
    match action
    case Decide(i) =>
      var r := b.calls[i].request;
      ResolveRecorded(b.store, r.key, r.threadId, r.content);
      MovedOnce(b, i, Decided(b, b.calls[i]), Act(b, action), key);
    case Persist(i, loaded, minted) =>
      if loaded {
        PersistOnce(b, i, minted, key);
      } else {
        MovedOnce(b, i, Refused(NoModel), Act(b, action), key);
      }
    case Launch(i) =>
      assert b.calls[i] in b.calls;
      MovedOnce(b, i, Answered(b.calls[i].stage.row, true), Act(b, action), key);
    case Abandon(i) => MovedOnce(b, i, Refused(DatabaseError), Act(b, action), key);
    case _ =>
  }

  /** Every step leaves all answers to a key true exactly when what it takes away is named by none of them. */
  lemma ActionKeepsAnswersIff(b: Backend, action: Action, wire: seq<Request>, key: string)
    requires BackendInv(b, wire) && AnswersRecorded(b, key) && Enabled(b, action)
    ensures AnswersRecorded(Act(b, action), key) <==> Harmless(b, action, key)
  {
    match action
    case RollBack(i) => RollBackKeepsAnswersIff(b, i, wire, key);
    case DeleteThread(t) => DeletionKeepsIff(b, t, key);
    case _ => OtherActionKeepsAnswers(b, action, key);
  }

  /** No step of the run takes away what an answer to the key names. */
  ghost predicate HarmlessRun(b: Backend, actions: seq<Action>, wire: seq<Request>, key: string)
    requires Runs(b, actions, wire)
    decreases |actions|
  {
    actions != [] ==> Harmless(b, actions[0], key) && HarmlessRun(Act(b, actions[0]), actions[1..], wire, key)
  }

  lemma {:induction false} RunKeepsAnswers(b: Backend, actions: seq<Action>, wire: seq<Request>, key: string)
    requires OneRequestPerKey(wire) && BackendInv(b, wire) && AnswersRecorded(b, key)
    requires Runs(b, actions, wire) && HarmlessRun(b, actions, wire, key)
    ensures AnswersRecorded(After(b, actions, wire), key)
    decreases |actions|
  {
    if actions != [] {
      ActionKeepsAnswersIff(b, actions[0], wire, key);
      ActionKeepsInv(b, actions[0], wire);
      RunKeepsAnswers(Act(b, actions[0]), actions[1..], wire, key);
    }
  }

  /** The conversation in which the key's turn was begun is not deleted. */
  ghost predicate Remembers(b: Backend, actions: seq<Action>, wire: seq<Request>, key: string)
    requires Runs(b, actions, wire)
    decreases |actions|
  {
    actions != [] ==>
      (actions[0].DeleteThread? ==> actions[0].thread !in b.store.threads || !BegunIn(b, key, actions[0].thread))
      && Remembers(Act(b, actions[0]), actions[1..], wire, key)
  }

  lemma {:induction false} RunKeepsBeginning(b: Backend, actions: seq<Action>, wire: seq<Request>, key: string)
    requires OneRequestPerKey(wire) && BackendInv(b, wire) && BeganInv(b, key)
    requires Runs(b, actions, wire) && Remembers(b, actions, wire, key)
    ensures BeganInv(After(b, actions, wire), key)
    decreases |actions|
  {
    if actions != [] {
      if actions[0].DeleteThread? {
        DeletionKeepsIff(b, actions[0].thread, key);
      } else {
        ActionKeepsBeginning(b, actions[0], wire, key);
      }
      ActionKeepsInv(b, actions[0], wire);
      RunKeepsBeginning(Act(b, actions[0]), actions[1..], wire, key);
    }
  }

  // ---- a request that names its conversation --------------------------------------------------------

  /** As `BeganInv`, but the row may be gone together with the conversation the request names. */
  ghost predicate NamedInv(b: Backend, key: string, t: ThreadId) {
    OneBeginning(b.calls, key) && (t in b.store.threads ==> BeginningRecorded(b, key))
  }

  /** The id made for a new conversation is not one that a request names. */
  predicate MintsOther(action: Action, t: ThreadId) {
    action.Persist? ==> action.minted != t
  }

  /** The transaction of a call brings `t` back only by making a new conversation of that name. */
  lemma PersistKeepsAway(b: Backend, i: nat, minted: ThreadId, t: ThreadId)
    requires At(b, i) && minted != t
    ensures t in AfterTransaction(b, i, minted).store.threads <==> t in b.store.threads
  {
  }

  lemma NamedPersist(b: Backend, i: nat, minted: ThreadId, key: string, t: ThreadId)
    requires NamedInv(b, key, t) && At(b, i) && b.calls[i].stage.Admitted? && minted != t
    requires b.calls[i].request.key == key ==> b.calls[i].request.threadId == Some(t)
    ensures NamedInv(AfterTransaction(b, i, minted), key, t)
  {
    PersistKeepsAway(b, i, minted, t);
    if t in b.store.threads {
      PersistOnce(b, i, minted, key);
    } else {
      var r := b.calls[i].request;
      var stage := StageOf(Outcome(b.store, r.key, r.threadId, r.content, minted), r.threadId.None?);
      assert r.key == key ==> !stage.Staged?;
      OneBeginningMoved(b, i, stage, key);
    }
  }

  lemma OneBeginningMoved(b: Backend, i: nat, stage: Stage, key: string)
    requires At(b, i) && OneBeginning(b.calls, key)
    requires b.calls[i].request.key == key && Began(b.calls[i].(stage := stage)) ==> Began(b.calls[i])
    ensures OneBeginning(Moved(b, i, stage), key)
  {
  }

  lemma NamedAction(b: Backend, action: Action, wire: seq<Request>, key: string, t: ThreadId)
    requires BackendInv(b, wire) && NamedInv(b, key, t) && Enabled(b, action) && MintsOther(action, t)
    requires forall c :: c in b.calls && c.request.key == key ==> c.request.threadId == Some(t)
    ensures NamedInv(Act(b, action), key, t)
  {
    match action
    case Persist(i, loaded, minted) =>
      assert b.calls[i] in b.calls;
      if loaded {
        NamedPersist(b, i, minted, key, t);
      } else {
        MovedOnce(b, i, Refused(NoModel), Act(b, action), key);
      }
    case Decide(i) => MovedOnce(b, i, Decided(b, b.calls[i]), Act(b, action), key);
    case Launch(i) => MovedOnce(b, i, Answered(b.calls[i].stage.row, true), Act(b, action), key);
    case Abandon(i) => MovedOnce(b, i, Refused(DatabaseError), Act(b, action), key);
    case RollBack(i) =>
      OneBeginningMoved(b, i, Refused(StartFailed), key);
      if t in b.store.threads {
        RollBackOnce(b, i, wire, key);
      }
    case DeleteThread(u) =>
      if u != t && t in b.store.threads {
        NamedDeletion(b, wire, key, t, u);
      }
    case _ =>
  }

  /** Deleting another conversation does not concern a key that names `t`. */
  lemma NamedDeletion(b: Backend, wire: seq<Request>, key: string, t: ThreadId, u: ThreadId)
    requires BackendInv(b, wire) && BeganInv(b, key) && u != t
    requires forall c :: c in b.calls && c.request.key == key ==> c.request.threadId == Some(t)
    ensures BeganInv(Act(b, DeleteThread(u)), key)
  {
    DeletionKeepsIff(b, u, key);
  }

  lemma {:induction false} NamedRun(b: Backend, actions: seq<Action>, wire: seq<Request>, r: Request)
    requires OneRequestPerKey(wire) && r in wire && r.threadId.Some? && BackendInv(b, wire) && Runs(b, actions, wire)
    requires NamedInv(b, r.key, r.threadId.value)
    requires forall a :: a in actions ==> MintsOther(a, r.threadId.value)
    ensures NamedInv(After(b, actions, wire), r.key, r.threadId.value)
    decreases |actions|
  {
    if actions != [] {
      forall c | c in b.calls && c.request.key == r.key ensures c.request.threadId == r.threadId {
        SameKeySameRequest(wire, c.request, r);
      }
      NamedAction(b, actions[0], wire, r.key, r.threadId.value);
      ActionKeepsInv(b, actions[0], wire);
      NamedRun(Act(b, actions[0]), actions[1..], wire, r);
    }
  }

  // ---- both sides together ------------------------------------------------------------------------

  /** A run of the page, in which only fresh keys are promised. */
  ghost predicate PageRun(steps: seq<System.Step>) {
    System.PossibleRun(System.INITIAL, steps) && KeysAreFresh(System.INITIAL, steps)
  }

  /** Every request the run sends. */
  function Wire(steps: seq<System.Step>): seq<Request>
    requires System.PossibleRun(System.INITIAL, steps)
  {
    System.RunTo(System.INITIAL, steps).wire
  }

  /** A backend that has not seen a key of the wire yet. */
  ghost predicate Unseen(b: Backend, wire: seq<Request>) {
    b.calls == [] && Keyed(b.store.rows) && forall r :: r in wire ==> !HasKey(b.store.rows, r.key)
  }

  lemma UnseenIsFine(b: Backend, wire: seq<Request>)
    requires Unseen(b, wire)
    ensures BackendInv(b, wire) && forall key :: BeganInv(b, key) && AnswersRecorded(b, key)
  {
    forall row, r | row in b.store.rows && r in wire ensures OwnRow(row, r) {
      assert forall i :: 0 <= i < |b.store.rows| ==> b.store.rows[i].key != Some(r.key);
    }
  }

  /**
   * Any run of the page, with any of its calls failing, answered late or repeated; then any run of the
   * backend over any selection of those attempts: each key's message is written at most once, as it was
   * sent, no attempt is refused for its key, and all answers to one key name the same two messages.
   */
  lemma MessageOnce(steps: seq<System.Step>, b: Backend, actions: seq<Action>, r: Request)
    requires PageRun(steps) && r in Wire(steps) && Unseen(b, Wire(steps)) && Runs(b, actions, Wire(steps))
    ensures var end := After(b, actions, Wire(steps));
            (forall i, j :: 0 <= i < j < |end.store.rows| && end.store.rows[i].key == Some(r.key) ==>
               end.store.rows[j].key != Some(r.key))
            && (forall row :: row in end.store.rows && row.key == Some(r.key) ==>
                  row.id == UserId(r.key) && row.content == r.content
                  && (r.threadId.Some? ==> r.threadId == Some(row.threadId)))
            && (forall c :: c in end.calls && c.request.key == r.key ==>
                  c.request == r && c.stage != Refused(KeyConflict)
                  && (c.stage.Answered? ==>
                        c.stage.answer.userId == UserId(r.key) && c.stage.answer.assistantId == AssistantId(r.key)))
  {
    RunKeepsWire(System.INITIAL, steps);
    var wire := Wire(steps);
    UnseenIsFine(b, wire);
    RunKeepsInv(b, actions, wire);
    var end := After(b, actions, wire);
    assert forall row :: row in end.store.rows ==> OwnRow(row, r);
    forall c | c in end.calls && c.request.key == r.key ensures c.request == r {
      SameKeySameRequest(wire, c.request, r);
    }
  }

  /**
   * At most one call of a key started a turn, whatever fails, is repeated, rolled back or deleted: always
   * when the request names its conversation, since no id made for a new one is that one; otherwise as long
   * as the conversation in which this very turn was begun is not deleted (`DeletedTurnStartsAgain`).
   */
  lemma TurnOnce(steps: seq<System.Step>, b: Backend, actions: seq<Action>, r: Request, i: nat, j: nat)
    requires PageRun(steps) && r in Wire(steps) && Unseen(b, Wire(steps)) && Runs(b, actions, Wire(steps))
    requires if r.threadId.Some? then forall a :: a in actions ==> MintsOther(a, r.threadId.value)
             else Remembers(b, actions, Wire(steps), r.key)
    requires i < j < |After(b, actions, Wire(steps)).calls|
    requires After(b, actions, Wire(steps)).calls[i].request.key == r.key
    requires After(b, actions, Wire(steps)).calls[j].request.key == r.key
    ensures var end := After(b, actions, Wire(steps)); !(Began(end.calls[i]) && Began(end.calls[j]))
  {
    RunKeepsWire(System.INITIAL, steps);
    UnseenIsFine(b, Wire(steps));
    if r.threadId.Some? {
      NamedRun(b, actions, Wire(steps), r);
    } else {
      RunKeepsBeginning(b, actions, Wire(steps), r.key);
    }
  }

  /**
   * Two answers to one key are equal when the request named its conversation, in every run; otherwise
   * when no step takes away what an answer to this key names (`ActionKeepsAnswersIff`).
   */
  lemma AnswersAgree(steps: seq<System.Step>, b: Backend, actions: seq<Action>, c: SendCall, d: SendCall)
    requires PageRun(steps) && Unseen(b, Wire(steps)) && Runs(b, actions, Wire(steps))
    requires c in After(b, actions, Wire(steps)).calls && d in After(b, actions, Wire(steps)).calls
    requires c.request.key == d.request.key && c.stage.Answered? && d.stage.Answered?
    requires c.request.threadId.Some? || HarmlessRun(b, actions, Wire(steps), c.request.key)
    ensures c.stage.answer == d.stage.answer
  {
    RunKeepsWire(System.INITIAL, steps);
    var wire := Wire(steps);
    UnseenIsFine(b, wire);
    RunKeepsInv(b, actions, wire);
    SameKeySameRequest(wire, c.request, d.request);
    if c.request.threadId.None? {
      RunKeepsAnswers(b, actions, wire, c.request.key);
      SameRow(After(b, actions, wire).store.rows, c.request.key, c.stage.answer, d.stage.answer);
    }
  }

  lemma SameRow(rows: seq<Stored>, key: string, a: Accepted, b: Accepted)
    requires Keyed(rows) && Recorded(rows, key, a) && Recorded(rows, key, b)
    ensures a.threadId == b.threadId
  {
    var x :| x in rows && x.key == Some(key) && x.id == a.userId && x.threadId == a.threadId;
    var y :| y in rows && y.key == Some(key) && y.id == b.userId && y.threadId == b.threadId;
    ByKeyIsUnique(rows, x);
    ByKeyIsUnique(rows, y);
  }

  /** What the page is promised of a response (`ChatSystem.RespondPromised`), the backend's answers keep. */
  lemma AnswersKeepPromises(b: Backend, wire: seq<Request>, c: SendCall)
    requires BackendInv(b, wire) && c in b.calls && c.stage.Answered?
    ensures var a := c.stage.answer;
            a.userId != a.assistantId && (c.request.threadId.Some? ==> c.request.threadId == Some(a.threadId))
  {
    var u, a := "user:" + c.request.key, "assistant:" + c.request.key;
    assert u[0] != a[0];
  }

  /**
   * Where the condition fails: an attempt that arrives while the first one is being started is answered
   * with rows that the first one then takes away again.
   */
  lemma RolledBackAnswer(r: Request, minted: ThreadId)
    requires !IsBlankKey(r.key) && r.threadId.None?
    ensures var b := Backend(Store({}, []), Free, []);
            var run := [Arrive(r), Decide(0), Persist(0, true, minted), Arrive(r), Decide(1), RollBack(0)];
            Unseen(b, [r]) && Runs(b, run, [r])
            && |After(b, run, [r]).calls| == 2
            && After(b, run, [r]).calls[1].stage == Answered(Accepted(minted, UserId(r.key), AssistantId(r.key)), false)
            && After(b, run, [r]).store == Store({}, [])
  {
    var b := Backend(Store({}, []), Free, []);
    var accepted := Accepted(minted, UserId(r.key), AssistantId(r.key));
    var row := Stored(UserId(r.key), minted, None, r.content, Some(r.key));
    var staged := SendCall(r, true, Staged(accepted, true));
    var b1 := Act(b, Arrive(r));
    var b2 := Act(b1, Decide(0));
    assert b2 == Backend(Store({}, []), ByCall(0), [SendCall(r, true, Admitted)]);
    var b3 := Act(b2, Persist(0, true, minted));
    assert b3 == Backend(Store({minted}, [row]), ByCall(0), [staged]);
    var b4 := Act(b3, Arrive(r));
    assert b4 == Backend(Store({minted}, [row]), ByCall(0), [staged, SendCall(r, false, Deciding)]);
    assert b4.store.rows[0].key == Some(r.key);
    assert |UserId(r.key).uuid| == |r.key| + 5 && |LegacyUserId(r.key).uuid| == |r.key|;
    var b5 := Act(b4, Decide(1));
    assert b5 == Backend(Store({minted}, [row]), ByCall(0), [staged, SendCall(r, false, Answered(accepted, false))]);
    WithoutAppended([], row);
    assert [] + [row] == [row] && {minted} - {minted} == {};
    var b6 := Act(b5, RollBack(0));
    assert b6.store == Store({}, []) && b6.calls[1] == b5.calls[1];
    var r1 := [Arrive(r)];
    var r2, r3 := r1 + [Decide(0)], r1 + [Decide(0)] + [Persist(0, true, minted)];
    RunsOn(b, [], Arrive(r), [r], b, b1);
    assert [] + [Arrive(r)] == r1;
    RunsOn(b, r1, Decide(0), [r], b1, b2);
    RunsOn(b, r2, Persist(0, true, minted), [r], b2, b3);
    RunsOn(b, r3, Arrive(r), [r], b3, b4);
    RunsOn(b, r3 + [Arrive(r)], Decide(1), [r], b4, b5);
    RunsOn(b, r3 + [Arrive(r)] + [Decide(1)], RollBack(0), [r], b5, b6);
    assert r3 + [Arrive(r)] + [Decide(1)] + [RollBack(0)]
        == [Arrive(r), Decide(0), Persist(0, true, minted), Arrive(r), Decide(1), RollBack(0)];
  }

  /** A repetition that finds no row of its key, with a free lock and a new id, writes and starts a turn. */
  lemma RepetitionStarts(b: Backend, r: Request, m: ThreadId, wire: seq<Request>) returns (run: seq<Action>)
    requires r in wire && !IsBlankKey(r.key) && r.threadId.None? && b.holder.Free? && m !in b.store.threads
    requires !HasKey(b.store.rows, r.key) && !HasId(b.store.rows, UserId(r.key))
    ensures Runs(b, run, wire)
    ensures var end := After(b, run, wire);
            |end.calls| == |b.calls| + 1 && end.calls[..|b.calls|] == b.calls
            && end.calls[|b.calls|] == SendCall(r, true, Answered(Accepted(m, UserId(r.key), AssistantId(r.key)), true))
            && end.store.threads == b.store.threads + {m}
            && end.store.rows == b.store.rows + [UserRow(b.store, r.key, r.content,
                                                         Accepted(m, UserId(r.key), AssistantId(r.key)))]
            && end.holder == ByCall(|b.calls|)
  {
    var i, accepted := |b.calls|, Accepted(m, UserId(r.key), AssistantId(r.key));
    var b1 := Act(b, Arrive(r));
    assert b1 == Backend(b.store, ByCall(i), b.calls + [SendCall(r, true, Deciding)]);
    var b2 := Act(b1, Decide(i));
    assert b2 == Backend(b.store, ByCall(i), b.calls + [SendCall(r, true, Admitted)]);
    var b3 := Act(b2, Persist(i, true, m));
    assert b3.calls == b.calls + [SendCall(r, true, Staged(accepted, true))] && b3.holder == ByCall(i);
    var b4 := Act(b3, Launch(i));
    assert b4.calls == b.calls + [SendCall(r, true, Answered(accepted, true))];
    RunsOn(b, [], Arrive(r), wire, b, b1);
    RunsOn(b, [] + [Arrive(r)], Decide(i), wire, b1, b2);
    RunsOn(b, [] + [Arrive(r)] + [Decide(i)], Persist(i, true, m), wire, b2, b3);
    RunsOn(b, [] + [Arrive(r)] + [Decide(i)] + [Persist(i, true, m)], Launch(i), wire, b3, b4);
    run := [] + [Arrive(r)] + [Decide(i)] + [Persist(i, true, m)] + [Launch(i)];
  }

  /** The row of a key's begun turn is the only one of the key, and of its id. */
  lemma DeletedRowIsGone(b: Backend, wire: seq<Request>, r: Request, a: Accepted)
    requires BackendInv(b, wire) && Recorded(b.store.rows, r.key, a) && a.userId == UserId(r.key)
    ensures !HasKey(OfOtherThreads(b.store.rows, a.threadId), r.key)
    ensures !HasId(OfOtherThreads(b.store.rows, a.threadId), UserId(r.key))
  {
    var rows, left := b.store.rows, OfOtherThreads(b.store.rows, a.threadId);
    var row :| row in rows && row.key == Some(r.key) && row.id == a.userId && row.threadId == a.threadId;
    OtherThreadsMeaning(rows, a.threadId);
    var i :| 0 <= i < |rows| && rows[i] == row;
    forall k | 0 <= k < |left| ensures left[k].key != Some(r.key) && left[k].id != UserId(r.key) {
      assert left[k] in left && left[k] in rows && left[k] != row;
      var j :| 0 <= j < |rows| && rows[j] == left[k];
      assert i < j || j < i;
    }
  }

  /**
   * What `TurnOnce` has to exclude: from every state in which the turn of a key without a named conversation
   * was begun and the lock is free, deleting the turn's conversation lets a repetition start a second turn,
   * answered with another conversation.
   */
  lemma DeletedTurnStartsAgain(b: Backend, wire: seq<Request>, i: nat, m: ThreadId) returns (run: seq<Action>)
    requires BackendInv(b, wire) && At(b, i) && b.calls[i].request.threadId.None? && !IsBlankKey(b.calls[i].request.key)
    requires BeganInv(b, b.calls[i].request.key) && b.calls[i].stage.Answered? && b.calls[i].stage.started
    requires b.calls[i].stage.answer.threadId in b.store.threads && b.holder.Free? && m !in b.store.threads
    ensures Runs(b, run, wire) && run != [] && run[0] == DeleteThread(b.calls[i].stage.answer.threadId)
    ensures var end, r := After(b, run, wire), b.calls[i].request;
            |end.calls| == |b.calls| + 1 && end.calls[i] == b.calls[i] && end.calls[|b.calls|].request == r
            && Began(end.calls[i]) && Began(end.calls[|b.calls|])
            && AnswerOf(end.calls[|b.calls|].stage).value != AnswerOf(end.calls[i].stage).value
  {
    var c := b.calls[i];
    assert c in b.calls;
    var a, gone := c.stage.answer, Act(b, DeleteThread(c.stage.answer.threadId));
    DeletedRowIsGone(b, wire, c.request, a);
    var again := RepetitionStarts(gone, c.request, m, wire);
    RunsOn(b, [], DeleteThread(a.threadId), wire, b, gone);
    RunsConcat(b, [] + [DeleteThread(a.threadId)], again, wire);
    run := [] + [DeleteThread(a.threadId)] + again;
    var end := After(b, run, wire);
    assert end.calls[i] == end.calls[..|b.calls|][i];
  }

  lemma RolledBackKeyIsGone(b: Backend, wire: seq<Request>, r: Request)
    requires BackendInv(b, wire) && r in wire
    ensures !HasKey(WithoutId(b.store.rows, UserId(r.key)), r.key) && !HasId(WithoutId(b.store.rows, UserId(r.key)), UserId(r.key))
  {
    var left := WithoutId(b.store.rows, UserId(r.key));
    forall k | 0 <= k < |left| ensures left[k].key != Some(r.key) && left[k].id != UserId(r.key) {
      assert left[k] in left && left[k] in b.store.rows && OwnRow(left[k], r);
    }
  }

  /**
   * What `AnswersAgree` has to exclude: from every state in which a rollback is due while another attempt of
   * its key was answered, a repetition after the rollback is answered with another conversation.
   */
  lemma RollBackSplitsAnswers(b: Backend, wire: seq<Request>, i: nat, j: nat, m: ThreadId) returns (run: seq<Action>)
    requires BackendInv(b, wire) && Enabled(b, RollBack(i)) && b.holder == ByCall(i) && At(b, j)
    requires b.calls[j].request == b.calls[i].request && b.calls[j].stage.Answered?
    requires b.calls[i].request.threadId.None? && !IsBlankKey(b.calls[i].request.key)
    requires m !in b.store.threads && m != b.calls[j].stage.answer.threadId
    ensures Runs(b, run, wire) && run != [] && run[0] == RollBack(i)
    ensures var end := After(b, run, wire);
            |end.calls| == |b.calls| + 1 && end.calls[j] == b.calls[j]
            && end.calls[|b.calls|].request == b.calls[j].request && end.calls[|b.calls|].stage.Answered?
            && end.calls[|b.calls|].stage.answer != end.calls[j].stage.answer
  {
    var r, gone := b.calls[i].request, Act(b, RollBack(i));
    assert b.calls[i] in b.calls;
    RolledBackKeyIsGone(b, wire, r);
    var again := RepetitionStarts(gone, r, m, wire);
    RunsOn(b, [], RollBack(i), wire, b, gone);
    RunsConcat(b, [] + [RollBack(i)], again, wire);
    run := [] + [RollBack(i)] + again;
    var end := After(b, run, wire);
    assert end.calls[j] == end.calls[..|b.calls|][j];
  }

  /** States of the first kind are reached: one call, its turn run to the end. */
  lemma TurnRunsToItsEnd(r: Request, t: ThreadId) returns (run: seq<Action>)
    requires !IsBlankKey(r.key) && r.threadId.None?
    ensures var b := Backend(Store({}, []), Free, []);
            Unseen(b, [r]) && Runs(b, run, [r]) && After(b, run, [r]).holder.Free?
            && t in After(b, run, [r]).store.threads && |After(b, run, [r]).calls| == 1
            && After(b, run, [r]).calls[0] == SendCall(r, true, Answered(Accepted(t, UserId(r.key), AssistantId(r.key)), true))
  {
    var b := Backend(Store({}, []), Free, []);
    var first := RepetitionStarts(b, r, t, [r]);
    var ran := After(b, first, [r]);
    var over := Act(ran, TurnOver(0));
    RunsOn(b, first, TurnOver(0), [r], ran, over);
    run := first + [TurnOver(0)];
  }

  lemma RunsConcat(b: Backend, first: seq<Action>, second: seq<Action>, wire: seq<Request>)
    requires Runs(b, first, wire) && Runs(After(b, first, wire), second, wire)
    ensures Runs(b, first + second, wire) && After(b, first + second, wire) == After(After(b, first, wire), second, wire)
    decreases |first|
  {
    if first == [] {
      assert first + second == second;
    } else {
      assert (first + second)[1..] == first[1..] + second;
      RunsConcat(Act(b, first[0]), first[1..], second, wire);
    }
  }

  lemma RunsOn(b: Backend, run: seq<Action>, action: Action, wire: seq<Request>, now: Backend, next: Backend)
    requires Runs(b, run, wire) && After(b, run, wire) == now
    requires Enabled(now, action) && (action.Arrive? ==> action.request in wire) && Act(now, action) == next
    ensures Runs(b, run + [action], wire) && After(b, run + [action], wire) == next
    decreases |run|
  {
    if run == [] {
      assert [] + [action] == [action] && [action][1..] == [];
    } else {
      assert (run + [action])[1..] == run[1..] + [action];
      RunsOn(Act(b, run[0]), run[1..], action, wire, now, next);
    }
  }
}
