/** Admitting a `send_message` call: ids from the key, the lookup of an earlier send, the transaction. */
module SendAdmission {
  import opened Base
  import opened ChatTypes

  // ---- ids --------------------------------------------------------------------------------------

  /** A name-based id. Two names never give the same id; how the digest is computed is left out. */
  function NameId(name: string): MessageId {
    MessageId(name)
  }

  function UserId(key: string): MessageId {
    NameId("user:" + key)
  }

  function AssistantId(key: string): MessageId {
    NameId("assistant:" + key)
  }

  /** The pair that rows written before the two prefixes existed go by. */
  function LegacyUserId(key: string): MessageId {
    NameId(key)
  }

  function LegacyAssistantId(key: string): MessageId {
    NameId(key + ":assistant")
  }

  // ---- the two tables ---------------------------------------------------------------------------

  datatype Stored = Stored(id: MessageId, threadId: ThreadId, parentId: Option<MessageId>, content: string, key: Option<string>)

  /** The conversations and, in the order of writing, the message rows. */
  datatype Store = Store(threads: set<ThreadId>, rows: seq<Stored>)

  predicate HasKey(rows: seq<Stored>, key: string) {
    exists i :: 0 <= i < |rows| && rows[i].key == Some(key)
  }

  predicate HasId(rows: seq<Stored>, id: MessageId) {
    exists i :: 0 <= i < |rows| && rows[i].id == id
  }

  function ByKey(rows: seq<Stored>, key: string): (r: Stored)
    requires HasKey(rows, key)
    ensures r in rows && r.key == Some(key)
  {
    if rows[0].key == Some(key) then rows[0]
    else
      assert exists i :: 0 <= i < |rows[1..]| && rows[1..][i].key == Some(key) by {
        var i :| 0 <= i < |rows| && rows[i].key == Some(key);
        assert rows[1..][i - 1] == rows[i];
      }
      ByKey(rows[1..], key)
  }

  function LastOf(rows: seq<Stored>, thread: ThreadId): Option<MessageId> {
    if rows == [] then None
    else if rows[|rows| - 1].threadId == thread then Some(rows[|rows| - 1].id)
    else LastOf(rows[..|rows| - 1], thread)
  }

  function WithoutId(rows: seq<Stored>, id: MessageId): (r: seq<Stored>)
    ensures forall x :: x in r <==> x in rows && x.id != id
  {
    if rows == [] then []
    else
      var rest := WithoutId(rows[1..], id);
      assert rows == [rows[0]] + rows[1..];
      if rows[0].id == id then rest else [rows[0]] + rest
  }

  /** The unique key constraints of the message table. */
  ghost predicate Keyed(rows: seq<Stored>) {
    (forall i, j :: 0 <= i < j < |rows| ==> rows[i].id != rows[j].id)
    && (forall i, j :: 0 <= i < j < |rows| && rows[i].key.Some? ==> rows[i].key != rows[j].key)
  }

  lemma ByKeyIsUnique(rows: seq<Stored>, row: Stored)
    requires Keyed(rows) && row in rows && row.key.Some?
    ensures HasKey(rows, row.key.value) && ByKey(rows, row.key.value) == row
  {
    var i :| 0 <= i < |rows| && rows[i] == row;
    var found := ByKey(rows, row.key.value);
    var j :| 0 <= j < |rows| && rows[j] == found;
  }

  // ---- the lookup -------------------------------------------------------------------------------

  datatype Resolution = Fresh(userId: MessageId, assistantId: MessageId) | Duplicate(earlier: Accepted) | Mismatch

  /** The answer to give for a row that an earlier send with the same key wrote. */
  function AnswerFor(row: Stored, key: string): Accepted {
    Accepted(row.threadId, row.id, if row.id == LegacyUserId(key) then LegacyAssistantId(key) else AssistantId(key))
  }

  predicate Agrees(row: Stored, thread: Option<ThreadId>, content: string) {
    (thread.None? || thread.value == row.threadId) && row.content == content
  }

  function Resolve(store: Store, key: string, thread: Option<ThreadId>, content: string): Resolution {
    if !HasKey(store.rows, key) then Fresh(UserId(key), AssistantId(key))
    else
      var row := ByKey(store.rows, key);
      if Agrees(row, thread, content) then Duplicate(AnswerFor(row, key)) else Mismatch
  }

  // ---- the transaction --------------------------------------------------------------------------

  /** `Rejected` is a violated table constraint: the transaction is rolled back. */
  datatype Persisted =
    | Written(sent: Accepted)
    | Replayed(earlier: Accepted)
    | Conflict
    | UnknownThread(thread: ThreadId)
    | Rejected

  /** What the transaction answers; `minted` is the id a new conversation would get. */
  function Outcome(store: Store, key: string, thread: Option<ThreadId>, content: string, minted: ThreadId): Persisted {
    match Resolve(store, key, thread, content)
    case Mismatch => Conflict
    case Duplicate(earlier) => Replayed(earlier)
    case Fresh(userId, assistantId) =>
      if thread.Some? && thread.value !in store.threads then UnknownThread(thread.value)
      else if HasId(store.rows, userId) || (thread.None? && minted in store.threads) then Rejected
      else Written(Accepted(if thread.Some? then thread.value else minted, userId, assistantId))
  }

  function UserRow(store: Store, key: string, content: string, accepted: Accepted): Stored {
    Stored(accepted.userId, accepted.threadId, LastOf(store.rows, accepted.threadId), content, Some(key))
  }

  function AfterPersist(store: Store, key: string, content: string, outcome: Persisted): Store {
    if outcome.Written?
    then Store(store.threads + {outcome.sent.threadId}, store.rows + [UserRow(store, key, content, outcome.sent)])
    else store
  }

  /** `cleanup_staged_send`: the send's row goes, and its conversation when the send created it. */
  function AfterCleanUp(store: Store, accepted: Accepted, isNew: bool): Store {
    Store(if isNew then store.threads - {accepted.threadId} else store.threads, WithoutId(store.rows, accepted.userId))
  }

  class ChatStore {
    var threads: set<ThreadId>
    var rows: seq<Stored>

    function View(): Store
      reads this
    {
      Store(threads, rows)
    }

    method FindByIdempotencyKey(key: string) returns (found: Option<Stored>)
      ensures found == if HasKey(rows, key) then Some(ByKey(rows, key)) else None
    {
      for i := 0 to |rows|
        invariant !HasKey(rows[..i], key)
      {
        if rows[i].key == Some(key) {
          ByKeyAt(rows, key, i);
          return Some(rows[i]);
        }
      }
      assert rows[..|rows|] == rows;
      return None;
    }

    method ResolveIdempotentSend(key: string, thread: Option<ThreadId>, content: string) returns (r: Resolution)
      ensures r == Resolve(View(), key, thread, content)
    {
      var existing := FindByIdempotencyKey(key);
      if existing.None? {
        return Fresh(UserId(key), AssistantId(key));
      }
      var row := existing.value;
      var threadMatches := thread.None? || thread.value == row.threadId;
      if !threadMatches || row.content != content {
        return Mismatch;
      }
      var assistantId := AssistantId(key);
      if row.id == LegacyUserId(key) {
        assistantId := LegacyAssistantId(key);
      }
      return Duplicate(Accepted(row.threadId, row.id, assistantId));
    }

    method PersistSendTransaction(key: string, thread: Option<ThreadId>, content: string, minted: ThreadId)
      returns (r: Persisted)
      modifies this
      ensures r == Outcome(old(View()), key, thread, content, minted)
      ensures View() == AfterPersist(old(View()), key, content, r)
    {
      var decision := ResolveIdempotentSend(key, thread, content);
      match decision
      case Mismatch => return Conflict;
      case Duplicate(earlier) => return Replayed(earlier);
      case Fresh(userId, assistantId) =>
        if thread.Some? && thread.value !in threads {
          return UnknownThread(thread.value);
        }
        if HasId(rows, userId) || (thread.None? && minted in threads) {
          return Rejected;
        }
        var accepted := Accepted(if thread.Some? then thread.value else minted, userId, assistantId);
        var row := UserRow(View(), key, content, accepted);
        if thread.None? {
          threads := threads + {minted};
        }
        rows := rows + [row];
        assert threads == old(threads) + {accepted.threadId};
        return Written(accepted);
    }

    method CleanUpStagedSend(accepted: Accepted, isNew: bool)
      modifies this
      ensures View() == AfterCleanUp(old(View()), accepted, isNew)
    {
      rows := WithoutId(rows, accepted.userId);
      if isNew {
        threads := threads - {accepted.threadId};
      }
    }
  }

  lemma ByKeyAt(rows: seq<Stored>, key: string, i: nat)
    requires i < |rows| && rows[i].key == Some(key) && !HasKey(rows[..i], key)
    ensures HasKey(rows, key) && ByKey(rows, key) == rows[i]
    decreases i
  {
    assert HasKey(rows, key);
    if i > 0 {
      assert rows[..i][0] == rows[0];
      assert rows[1..][i - 1] == rows[i];
      var before := rows[1..][..i - 1];
      forall k | 0 <= k < |before| ensures before[k].key != Some(key) {
        assert rows[..i][k + 1] == before[k];
      }
      ByKeyAt(rows[1..], key, i - 1);
    }
  }

  // ---- what the two together promise -------------------------------------------------------------

  lemma WrittenKeepsKeyed(store: Store, key: string, thread: Option<ThreadId>, content: string, minted: ThreadId)
    requires Keyed(store.rows)
    ensures Keyed(AfterPersist(store, key, content, Outcome(store, key, thread, content, minted)).rows)
  {
    var outcome := Outcome(store, key, thread, content, minted);
    if outcome.Written? {
      assert !HasKey(store.rows, key) && !HasId(store.rows, UserId(key));
      assert forall i :: 0 <= i < |store.rows| ==> store.rows[i].key != Some(key) && store.rows[i].id != UserId(key);
    }
  }

  /** Every repetition of an accepted send gets the ids and the conversation of the first one. */
  lemma PersistThenResolve(store: Store, key: string, thread: Option<ThreadId>, content: string, minted: ThreadId)
    requires Keyed(store.rows) && Outcome(store, key, thread, content, minted).Written?
    ensures var first := Outcome(store, key, thread, content, minted);
            var later := AfterPersist(store, key, content, first);
            Resolve(later, key, thread, content) == Duplicate(first.sent)
            && Resolve(later, key, None, content) == Duplicate(first.sent)
            && Resolve(later, key, Some(first.sent.threadId), content) == Duplicate(first.sent)
  {
    var first := Outcome(store, key, thread, content, minted);
    var later := AfterPersist(store, key, content, first);
    var row := UserRow(store, key, content, first.sent);
    WrittenKeepsKeyed(store, key, thread, content, minted);
    assert later.rows[|store.rows|] == row;
    ByKeyIsUnique(later.rows, row);
    assert |UserId(key).uuid| == |key| + 5 && |LegacyUserId(key).uuid| == |key|;
  }

  /** A row of the older scheme is answered with the older scheme's pair. */
  lemma LegacyRowKeepsItsPair(store: Store, key: string, row: Stored, thread: Option<ThreadId>)
    requires Keyed(store.rows) && row in store.rows
    requires row.key == Some(key) && row.id == LegacyUserId(key) && (thread.None? || thread.value == row.threadId)
    ensures Resolve(store, key, thread, row.content)
            == Duplicate(Accepted(row.threadId, LegacyUserId(key), LegacyAssistantId(key)))
  {
    ByKeyIsUnique(store.rows, row);
  }

  lemma WithoutAbsent(rows: seq<Stored>, id: MessageId)
    requires !HasId(rows, id)
    ensures WithoutId(rows, id) == rows
  {
    if rows != [] {
      assert rows[0].id != id;
      assert !HasId(rows[1..], id) by {
        assert forall i :: 0 <= i < |rows[1..]| ==> rows[1..][i] == rows[i + 1];
      }
      WithoutAbsent(rows[1..], id);
    }
  }

  lemma WithoutAppended(rows: seq<Stored>, row: Stored)
    requires !HasId(rows, row.id)
    ensures WithoutId(rows + [row], row.id) == rows
  {
    if rows != [] {
      assert rows[0].id != row.id;
      assert !HasId(rows[1..], row.id) by {
        assert forall i :: 0 <= i < |rows[1..]| ==> rows[1..][i] == rows[i + 1];
      }
      assert (rows + [row])[1..] == rows[1..] + [row];
      WithoutAppended(rows[1..], row);
    } else {
      assert [row][1..] == [];
    }
  }

  /** A send that failed to start leaves the tables as they were. */
  lemma CleanUpUndoesPersist(store: Store, key: string, thread: Option<ThreadId>, content: string, minted: ThreadId)
    requires Outcome(store, key, thread, content, minted).Written?
    ensures var first := Outcome(store, key, thread, content, minted);
            AfterCleanUp(AfterPersist(store, key, content, first), first.sent, thread.None?) == store
  {
    var first := Outcome(store, key, thread, content, minted);
    WithoutAppended(store.rows, UserRow(store, key, content, first.sent));
    if thread.None? {
      assert store.threads + {minted} - {minted} == store.threads;
    } else {
      assert store.threads + {thread.value} == store.threads;
    }
  }
}
