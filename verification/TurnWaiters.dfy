/**
 * Waiting for a conversation's turn to end. A waiter keeps the set it was put into; timeout and
 * completion both take it out of that set, and the one that empties the set drops the map's entry.
 */
module TurnWaiters {
  import opened Base
  import opened ChatTypes
  import opened PageSteps

  predicate HasPendingTurn(p: Page, thread: ThreadId) {
    p.streamingThread == Some(thread)
    || (p.setup && p.active == Some(thread))
    || thread in p.parked
    || (p.active == Some(thread) && p.prompts != [])
  }

  /** Once an ended turn is reloaded and settled, nothing of it keeps its conversation pending. */
  lemma EndedTurnIsNotPending(p: Page, e: TurnEvent, list: seq<Row>, fault: Option<Fault>)
    requires Ends(p, e)
    ensures HasPendingTurn(p, e.threadId)
    ensures !HasPendingTurn(CloseSettled(CloseLoaded(BeginClose(p, e), e.threadId, list), None), e.threadId)
    ensures !HasPendingTurn(CloseSettled(BeginClose(p, e), fault), e.threadId)
  {
    ClosingPromptsAreGone(p, e);
    SettledIsNotPending(BeginClose(p, e), e.threadId, list, fault);
  }

  predicate NothingAsked(p: Page, thread: ThreadId) {
    !p.setup && thread !in p.parked && (p.active == Some(thread) ==> p.prompts == [])
  }

  lemma ClosingPromptsAreGone(p: Page, e: TurnEvent)
    requires !p.setup
    ensures NothingAsked(BeginClose(p, e), e.threadId)
  {
  }

  lemma SettledIsNotPending(p: Page, thread: ThreadId, list: seq<Row>, fault: Option<Fault>)
    requires NothingAsked(p, thread)
    ensures !HasPendingTurn(CloseSettled(CloseLoaded(p, thread, list), None), thread)
    ensures !HasPendingTurn(CloseSettled(p, fault), thread)
  {
    var loaded := CloseLoaded(p, thread, list);
    assert NothingAsked(loaded, thread);
  }

  /** A JavaScript set: its members in the order in which they were added. */
  class WaiterSet {
    ghost const thread: ThreadId
    var members: seq<Waiter>

    constructor (ghost thread: ThreadId)
      ensures this.thread == thread && members == []
    {
      this.thread := thread;
      members := [];
    }
  }

  /** A promise with its timer. `calls` counts the calls of `resolve`; only the first one takes effect. */
  class Waiter {
    const thread: ThreadId
    const home: WaiterSet
    var armed: bool
    var calls: nat
    var outcome: Option<bool>

    constructor (thread: ThreadId, home: WaiterSet)
      ensures this.thread == thread && this.home == home && armed && calls == 0 && outcome == None
    {
      this.thread, this.home, armed, calls, outcome := thread, home, true, 0, None;
    }

    method Settle(value: bool)
      modifies this`calls, this`outcome
      ensures calls == old(calls) + 1
      ensures outcome == if old(outcome).None? then Some(value) else old(outcome)
    {
      calls := calls + 1;
      if outcome.None? {
        outcome := Some(value);
      }
    }
  }

  ghost predicate NoTwice(waiters: seq<Waiter>) {
    forall i, j :: 0 <= i < j < |waiters| ==> waiters[i] != waiters[j]
  }

  /** The members without `w`, in their order. */
  function Removed(waiters: seq<Waiter>, w: Waiter): seq<Waiter> {
    if waiters == [] then []
    else if waiters[0] == w then waiters[1..]
    else [waiters[0]] + Removed(waiters[1..], w)
  }

  lemma RemovedMeaning(waiters: seq<Waiter>, w: Waiter)
    requires NoTwice(waiters)
    ensures NoTwice(Removed(waiters, w)) && forall x :: x in Removed(waiters, w) <==> x in waiters && x != w
  {
    if waiters != [] {
      assert waiters == [waiters[0]] + waiters[1..];
      RemovedMeaning(waiters[1..], w);
      var rest := Removed(waiters[1..], w);
      assert waiters[0] !in waiters[1..];
      assert forall k :: 0 <= k < |rest| ==> rest[k] in rest;
    }
  }

  class TurnWaiters {
    var waiting: map<ThreadId, WaiterSet>
    ghost var created: set<Waiter>
    ghost var sets: set<WaiterSet>
    ghost var answered: seq<Waiter>      // in the order in which their promises were resolved

    /** A waiter is live until its promise is resolved. */
    ghost predicate Live(w: Waiter)
      reads w
    {
      w.outcome.None?
    }

    /** A set holds live waiters of its own, each once. `gone` has left and is still to be resolved. */
    ghost predicate SetFits(s: WaiterSet, gone: Waiter?)
      reads this, created, s
    {
      NoTwice(s.members) && forall w :: w in s.members ==> w in created && w.home == s && w != gone && Live(w)
    }

    /** A live waiter has its timer running and is in the set the map holds; a resolved one was resolved once. */
    ghost predicate WaiterFits(w: Waiter)
      reads this, w, w.home
    {
      (w.armed <==> Live(w)) && w.calls == (if Live(w) then 0 else 1)
      && (Live(w) ==> w.thread in waiting && waiting[w.thread] == w.home && w in w.home.members)
    }

    ghost predicate ValidBut(gone: Waiter?)
      reads this, created, sets
    {
      && (forall w :: w in created ==> w.home in sets && w.home.thread == w.thread)
      && (forall t :: t in waiting ==> waiting[t] in sets && waiting[t].thread == t && waiting[t].members != [])
      && (forall s :: s in sets ==> SetFits(s, gone))
      && (forall w :: w in created && w != gone ==> WaiterFits(w))
    }

    ghost predicate Valid()
      reads this, created, sets
    {
      ValidBut(null)
    }

    constructor ()
      ensures Valid() && fresh(created) && fresh(sets) && answered == []
    {
      waiting, created, sets, answered := map[], {}, {}, [];
    }

    /** Either answers at once, or leaves a live waiter among those of `thread`. */
    method WaitForTurnTerminal(page: Page, thread: ThreadId) returns (answer: Option<bool>, waiter: Waiter?)
      requires Valid()
      modifies this, sets
      ensures Valid() && fresh(sets - old(sets)) && fresh(created - old(created)) && answered == old(answered)
      ensures !HasPendingTurn(page, thread) ==> answer == Some(true) && waiter == null && created == old(created)
      ensures HasPendingTurn(page, thread) ==> answer == None && waiter != null && Waits(waiter, thread)
      ensures HasPendingTurn(page, thread) ==>
                created == old(created) + {waiter}
                && waiting[thread].members == (if old(thread in waiting) then old(waiting[thread].members) else []) + [waiter]
    {
      if !HasPendingTurn(page, thread) {
        return Some(true), null;
      }
      answer := None;
      waiter := StartWaiting(thread);
    }

    ghost predicate Waits(w: Waiter, thread: ThreadId)
      reads this, w
    {
      w.thread == thread && Live(w) && thread in waiting && waiting[thread] == w.home
    }

    method StartWaiting(thread: ThreadId) returns (w: Waiter)
      requires Valid()
      modifies this`waiting, this`created, this`sets, sets
      ensures Valid() && fresh(sets - old(sets)) && fresh(w) && created == old(created) + {w} && Waits(w, thread)
      ensures w.home.members == (if old(thread in waiting) then old(waiting[thread].members) else []) + [w]
    {
      var waiters := SetFor(thread);
      assert waiters.members == if old(thread in waiting) then old(waiting[thread].members) else [];
      w := new Waiter(thread, waiters);
      Enrol(w);
    }

    /** The set the map holds for `thread`, or a new one that is not in the map yet. */
    method SetFor(thread: ThreadId) returns (waiters: WaiterSet)
      requires Valid()
      modifies this`sets
      ensures Valid() && waiters in sets && fresh(sets - old(sets))
      ensures waiters.thread == thread
      ensures if thread in waiting then waiters == waiting[thread] else waiters.members == []
    {
      if thread in waiting {
        return waiting[thread];
      }
      waiters := new WaiterSet(thread);
      sets := sets + {waiters};
    }

    method Enrol(w: Waiter)
      requires Valid() && w.home in sets && w !in created && w.armed && Live(w) && w.calls == 0
      requires w.home.thread == w.thread && (w.thread in waiting ==> w.home == waiting[w.thread])
      modifies this`waiting, this`created, w.home
      ensures Valid() && created == old(created) + {w}
      ensures waiting == old(waiting)[w.thread := w.home]
      ensures w.home.members == old(w.home.members) + [w]
    {
      w.home.members := w.home.members + [w];
      waiting := waiting[w.thread := w.home];
      created := created + {w};
    }

    /** The ten seconds of a waiter whose timer was not cleared are over. */
    method TimeOut(w: Waiter)
      requires Valid() && w in created && w.armed
      modifies this`waiting, this`answered, w, w.home
      ensures Valid() && w.outcome == Some(false) && answered == old(answered) + [w]
      ensures waiting == if old(w.home.members) == [w] then old(waiting) - {w.thread} else old(waiting)
    {
      Retire(w, false);
      OnlyMember(old(w.home.members), w);
    }

    /** The turn ended: the timer is cleared and the promise resolved. */
    method Finish(w: Waiter)
      requires Valid() && w in created && Live(w)
      modifies this`waiting, this`answered, w, w.home
      ensures Valid() && w.outcome == Some(true) && answered == old(answered) + [w]
      ensures w.home.members == Removed(old(w.home.members), w)
      ensures waiting == if w.home.members == [] then old(waiting) - {w.thread} else old(waiting)
    {
      Retire(w, true);
    }

    /** Takes a waiter out of its set, and an emptied set out of the map; then resolves its promise. */
    method Retire(w: Waiter, value: bool)
      requires Valid() && w in created && Live(w)
      modifies this`waiting, this`answered, w, w.home
      ensures Valid() && w.outcome == Some(value) && answered == old(answered) + [w]
      ensures w.home.members == Removed(old(w.home.members), w)
      ensures waiting == if w.home.members == [] then old(waiting) - {w.thread} else old(waiting)
    {
      Leave(w);
      label left:
      w.Settle(value);
      answered := answered + [w];
      forall s | s in sets ensures SetFits(s, null) {
        assert old@left(SetFits(s, w));
      }
      forall v | v in created ensures WaiterFits(v) {
        assert v != w ==> old@left(WaiterFits(v));
      }
    }

    /** All but the promise itself: `w` is no longer live in any respect but its outcome. */
    method Leave(w: Waiter)
      requires Valid() && w in created && Live(w)
      modifies this`waiting, w`armed, w.home
      ensures !w.armed && w.calls == 0 && w.outcome.None?
      ensures w.home.members == Removed(old(w.home.members), w)
      ensures waiting == if w.home.members == [] then old(waiting) - {w.thread} else old(waiting)
      ensures ValidBut(w)
    {
      assert WaiterFits(w) && SetFits(w.home, null);
      RemovedMeaning(w.home.members, w);
      w.armed := false;
      w.home.members := Removed(w.home.members, w);
      if w.home.members == [] {
        waiting := waiting - {w.thread};
      }
      forall s | s in sets ensures SetFits(s, w) {
        assert old(SetFits(s, null));
      }
      forall v | v in created && v != w ensures WaiterFits(v) {
        assert old(WaiterFits(v));
      }
    }

    /** Every live waiter of `thread` is answered, in the order in which they began to wait; no other one is touched. */
    method ResolveTurnTerminal(thread: ThreadId)
      requires Valid()
      modifies this`waiting, this`answered, created, sets
      ensures Valid() && waiting == old(waiting) - {thread}
      ensures answered == old(answered) + if old(thread in waiting) then old(waiting[thread].members) else []
      ensures forall w :: w in created ==>
                w.outcome == if old(Live(w)) && w.thread == thread then Some(true) else old(w.outcome)
    {
      if thread !in waiting {
        assert waiting - {thread} == waiting;
        return;
      }
      var waiters := waiting[thread];
      var all := waiters.members;
      for i := 0 to |all|
        invariant Valid() && waiters.members == all[i..]
        invariant answered == old(answered) + all[..i]
        invariant waiting == if i == |all| then old(waiting) - {thread} else old(waiting)
        invariant forall w :: w in created ==> w.outcome == if w in all[..i] then Some(true) else old(w.outcome)
      {
        var w := all[i];
        assert waiters.members[0] == w && w in waiters.members;
        assert all[..i + 1] == all[..i] + [w] && all[i..] == [w] + all[i + 1..];
        Finish(w);
      }
      assert all[..|all|] == all;
    }
  }

  lemma OnlyMember(waiters: seq<Waiter>, w: Waiter)
    requires NoTwice(waiters) && w in waiters
    ensures Removed(waiters, w) == [] <==> waiters == [w]
  {
    RemovedMeaning(waiters, w);
    if |waiters| > 1 {
      assert waiters[0] in waiters && waiters[1] in waiters;
      var x := if waiters[0] == w then waiters[1] else waiters[0];
      assert x in Removed(waiters, w);
    }
  }
}
