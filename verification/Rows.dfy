/** Transcript lists: looking a row up by id, changing it in place, appending tool rows once each. */
module Rows {
  import opened Base
  import opened ChatTypes

  /** Position of the first row with `id`, or -1: `list.findIndex((m) => m.id === id)`. */
  function IndexOf(list: seq<Row>, id: MessageId): (i: int)
    ensures -1 <= i < |list|
    ensures i >= 0 ==> list[i].id == id
    ensures forall j :: 0 <= j < (if i >= 0 then i else |list|) ==> list[j].id != id
  {
    if list == [] then -1
    else if list[0].id == id then 0
    else
      var rest := IndexOf(list[1..], id);
      assert forall j :: 1 <= j < |list| ==> list[j] == list[1..][j - 1];
      if rest == -1 then -1 else rest + 1
  }

  predicate Has(list: seq<Row>, id: MessageId) {
    IndexOf(list, id) >= 0
  }

  function Ids(list: seq<Row>): (ids: seq<MessageId>)
    ensures |ids| == |list|
    ensures forall i :: 0 <= i < |list| ==> ids[i] == list[i].id
  {
    seq(|list|, i requires 0 <= i < |list| => list[i].id)
  }

  lemma HasIsMembership(list: seq<Row>, id: MessageId)
    ensures Has(list, id) <==> id in Ids(list)
  {
    var i := IndexOf(list, id);
    if i >= 0 {
      assert Ids(list)[i] == id;
    } else {
      assert forall j :: 0 <= j < |list| ==> Ids(list)[j] != id;
    }
  }

  ghost predicate Distinct<T>(ids: seq<T>) {
    forall i, j :: 0 <= i < j < |ids| ==> ids[i] != ids[j]
  }

  /** `list` with `row` in the place of the first row that has its id; unchanged without one. */
  function Put(list: seq<Row>, row: Row): seq<Row> {
    var i := IndexOf(list, row.id);
    if i < 0 then list else list[i := row]
  }

  lemma PutKeepsIds(list: seq<Row>, row: Row)
    ensures Ids(Put(list, row)) == Ids(list)
  {
  }

  lemma PutReplaces(list: seq<Row>, row: Row, id: MessageId)
    ensures IndexOf(Put(list, row), id) == IndexOf(list, id)
    ensures Has(list, id) ==>
              Put(list, row)[IndexOf(list, id)] == if id == row.id then row else list[IndexOf(list, id)]
  {
    PutKeepsIds(list, row);
    SameIdsSameIndex(list, Put(list, row), id);
  }

  lemma SameIdsSameIndex(a: seq<Row>, b: seq<Row>, id: MessageId)
    requires Ids(a) == Ids(b)
    ensures IndexOf(a, id) == IndexOf(b, id)
  {
    assert |a| == |Ids(a)| == |Ids(b)| == |b|;
    assert forall k :: 0 <= k < |a| ==> a[k].id == Ids(a)[k] == b[k].id;
  }

  lemma AppendIndex(list: seq<Row>, row: Row, id: MessageId)
    ensures Has(list, id) ==> IndexOf(list + [row], id) == IndexOf(list, id)
    ensures !Has(list, id) && row.id == id ==> IndexOf(list + [row], id) == |list|
    ensures !Has(list, id) && row.id != id ==> !Has(list + [row], id)
  {
    var longer := list + [row];
    assert forall k :: 0 <= k < |list| ==> longer[k] == list[k];
    var i, j := IndexOf(list, id), IndexOf(longer, id);
    if i >= 0 {
      assert longer[i].id == id;
    } else if row.id == id {
      assert longer[|list|].id == id;
    }
  }

  /** The row a tool event adds (`handleToolCall`, `handleToolResult`). */
  function ToolRow(e: ToolEvent): (row: Row)
    ensures row.id == e.messageId && row.threadId == e.threadId
  {
    match e
    case Call(id, thread, name, input, source) =>
      Row(id, thread, None, ToolCall, "", None, None, None, None,
          Some(name), None, Some(input), None, Some(source), None)
    case Result(id, thread, callId, content, isError) =>
      Row(id, thread, None, ToolResult, content, None, None, None, None,
          None, Some(callId), None, Some(isError), None, None)
  }

  /** Appends the event's row unless the list already has its id. */
  function AddTool(list: seq<Row>, e: ToolEvent): (r: seq<Row>) {
    if Has(list, e.messageId) then list else list + [ToolRow(e)]
  }

  function AddTools(list: seq<Row>, events: seq<ToolEvent>): seq<Row>
    decreases |events|
  {
    if events == [] then list else AddTools(AddTool(list, events[0]), events[1..])
  }

  lemma AddToolsOne(list: seq<Row>, e: ToolEvent)
    ensures AddTools(list, [e]) == AddTool(list, e)
    ensures AddTools(list, []) == list
  {
    assert [e][1..] == [];
  }

  lemma AddToolsSnoc(list: seq<Row>, events: seq<ToolEvent>, e: ToolEvent)
    ensures AddTools(list, events + [e]) == AddTool(AddTools(list, events), e)
    decreases |events|
  {
    if events == [] {
      assert (events + [e])[1..] == [];
    } else {
      assert (events + [e])[1..] == events[1..] + [e];
      AddToolsSnoc(AddTool(list, events[0]), events[1..], e);
    }
  }

  /** Ids in order of first appearance after `base`: what a transcript list holds after tool events. */
  function AddNew(base: seq<MessageId>, more: seq<MessageId>): (r: seq<MessageId>)
    decreases |more|
  {
    if more == [] then base
    else AddNew(if more[0] in base then base else base + [more[0]], more[1..])
  }

  function EventIds(events: seq<ToolEvent>): (ids: seq<MessageId>)
    ensures |ids| == |events|
  {
    seq(|events|, i requires 0 <= i < |events| => events[i].messageId)
  }

  lemma AddToolIds(list: seq<Row>, e: ToolEvent)
    ensures Ids(AddTool(list, e)) == AddNew(Ids(list), [e.messageId])
  {
    HasIsMembership(list, e.messageId);
    assert [e.messageId][1..] == [];
    assert Ids(list + [ToolRow(e)]) == Ids(list) + [e.messageId];
  }

  lemma AddNewStep(base: seq<MessageId>, id: MessageId)
    ensures AddNew(base, [id]) == if id in base then base else base + [id]
  {
    assert [id][1..] == [];
  }

  lemma {:induction false} AddToolsIds(list: seq<Row>, events: seq<ToolEvent>)
    ensures Ids(AddTools(list, events)) == AddNew(Ids(list), EventIds(events))
    decreases |events|
  {
    if events == [] {
      assert EventIds(events) == [];
    } else {
      var next, rest := AddTool(list, events[0]), events[1..];
      AddToolIds(list, events[0]);
      AddNewStep(Ids(list), events[0].messageId);
      AddToolsIds(next, rest);
      assert EventIds(events)[0] == events[0].messageId;
      assert EventIds(events)[1..] == EventIds(rest);
      assert AddTools(list, events) == AddTools(next, rest);
    }
  }

  lemma AddNewConcat(base: seq<MessageId>, a: seq<MessageId>, b: seq<MessageId>)
    ensures AddNew(base, a + b) == AddNew(AddNew(base, a), b)
    decreases |a|
  {
    if a == [] {
      assert a + b == b;
    } else {
      assert (a + b)[1..] == a[1..] + b;
      AddNewConcat(if a[0] in base then base else base + [a[0]], a[1..], b);
    }
  }

  /**
   * What `AddNew` means: the old ids stay in front, every id is there, none twice. In which order the new
   * ones stand says `AddNewKeepsArrivalOrder`.
   */
  lemma {:induction false} AddNewMeaning(base: seq<MessageId>, more: seq<MessageId>)
    requires Distinct(base)
    ensures base <= AddNew(base, more)
    ensures Distinct(AddNew(base, more))
    ensures forall id :: id in AddNew(base, more) <==> id in base || id in more
    decreases |more|
  {
    if more != [] {
      var rest := more[1..];
      assert more == [more[0]] + rest;
      if more[0] in base {
        AddNewMeaning(base, rest);
      } else {
        var next := base + [more[0]];
        AddNewMeaning(next, rest);
        assert base <= next;
      }
    }
  }

  /** Two new ids stand in the order in which they first arrived, however often each is repeated. */
  lemma {:induction false} AddNewKeepsArrivalOrder(
    base: seq<MessageId>, more: seq<MessageId>, i: nat, j: nat)
    requires Distinct(base) && i < j < |more| && more[i] !in base && more[j] !in base
    requires more[i] !in more[..i] && more[j] !in more[..j]
    ensures InOrderIn(AddNew(base, more), more[i], more[j])
    decreases |more|
  {
    var next := if more[0] in base then base else base + [more[0]];
    var rest := more[1..];
    assert more[0] in more[..j];
    assert rest[j - 1] == more[j] && rest[..j - 1] == more[..j][1..];
    if i > 0 {
      assert more[0] in more[..i];
      assert rest[i - 1] == more[i] && rest[..i - 1] == more[..i][1..];
      AddNewKeepsArrivalOrder(next, rest, i - 1, j - 1);
    } else {
      FirstNewStandsFirst(base, rest, more[0], more[j]);
    }
  }

  ghost predicate InOrderIn(ids: seq<MessageId>, a: MessageId, b: MessageId) {
    exists x, y :: 0 <= x < y < |ids| && ids[x] == a && ids[y] == b
  }

  lemma FirstNewStandsFirst(base: seq<MessageId>, rest: seq<MessageId>, a: MessageId, b: MessageId)
    requires Distinct(base) && a !in base && b !in base && a != b && b in rest
    ensures InOrderIn(AddNew(base + [a], rest), a, b)
  {
    var next := base + [a];
    AddNewMeaning(next, rest);
    var all := AddNew(next, rest);
    assert all[|base|] == next[|base|] == a;
    var y :| 0 <= y < |all| && all[y] == b;
    assert forall k :: 0 <= k < |base| ==> all[k] == next[k] == base[k];
    assert y > |base|;
  }

  lemma AddToolsKeepsDistinct(list: seq<Row>, events: seq<ToolEvent>)
    requires Distinct(Ids(list))
    ensures Distinct(Ids(AddTools(list, events)))
  {
    AddToolsIds(list, events);
    AddNewMeaning(Ids(list), EventIds(events));
  }

  /** Adding tool rows leaves every row that is already there where it is. */
  lemma AddToolsKeepsRow(list: seq<Row>, events: seq<ToolEvent>, id: MessageId)
    requires Has(list, id)
    ensures IndexOf(AddTools(list, events), id) == IndexOf(list, id)
    ensures AddTools(list, events)[IndexOf(list, id)] == list[IndexOf(list, id)]
    decreases |events|
  {
    if events != [] {
      AppendIndex(list, ToolRow(events[0]), id);
      AddToolsKeepsRow(AddTool(list, events[0]), events[1..], id);
    }
  }
}
