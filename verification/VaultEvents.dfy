/**
 * The feed of changed tables: reports are collected for a fixed window and announced as one sorted list.
 * Which branch of each `select!` wins is the environment's choice and is given as a script of signals.
 */
module VaultEvents {
  import opened Base

  // ---- sorted sets of table names -----------------------------------------------------------------

  /** The order of `String`: by code points, a proper prefix first. */
  predicate Less(a: string, b: string) {
    b != "" && (a == "" || a[0] < b[0] || (a[0] == b[0] && Less(a[1..], b[1..])))
  }

  lemma LessIsStrict(a: string)
    ensures !Less(a, a)
  {
  }

  lemma LessIsOneWay(a: string, b: string)
    ensures !Less(a, b) || !Less(b, a)
  {
  }

  lemma LessIsTotal(a: string, b: string)
    ensures a == b || Less(a, b) || Less(b, a)
  {
    if a != "" && b != "" && a[0] == b[0] {
      LessIsTotal(a[1..], b[1..]);
      assert a == [a[0]] + a[1..] && b == [b[0]] + b[1..];
    }
  }

  lemma LessIsTransitive(a: string, b: string, c: string)
    requires Less(a, b) && Less(b, c)
    ensures Less(a, c)
  {
    if a != "" && a[0] == b[0] && b[0] == c[0] {
      LessIsTransitive(a[1..], b[1..], c[1..]);
    }
  }

  /** Ascending, so without duplicates: what iterating a `BTreeSet` gives. */
  ghost predicate Sorted(s: seq<string>) {
    forall i, j :: 0 <= i < j < |s| ==> Less(s[i], s[j])
  }

  ghost function Elements(s: seq<string>): set<string> {
    set x | x in s
  }

  lemma SortedCons(x: string, s: seq<string>)
    requires Sorted(s) && forall y :: y in s ==> Less(x, y)
    ensures Sorted([x] + s) && Elements([x] + s) == {x} + Elements(s)
  {
    assert forall j :: 0 <= j < |s| ==> s[j] in s;
  }

  /** The head of a sorted list is below the rest, which is sorted too. */
  lemma SortedHead(s: seq<string>)
    requires Sorted(s) && s != []
    ensures Sorted(s[1..]) && Elements(s) == {s[0]} + Elements(s[1..])
    ensures forall y :: y in s[1..] ==> Less(s[0], y)
  {
    assert s == [s[0]] + s[1..];
    forall y | y in s[1..] ensures Less(s[0], y) {
      var k :| 0 <= k < |s[1..]| && s[1..][k] == y;
      assert s[k + 1] == y;
    }
  }

  function Insert(s: seq<string>, x: string): seq<string> {
    if s == [] then [x]
    else if s[0] == x then s
    else if Less(x, s[0]) then [x] + s
    else [s[0]] + Insert(s[1..], x)
  }

  lemma {:induction false} InsertMeaning(s: seq<string>, x: string)
    requires Sorted(s)
    ensures Sorted(Insert(s, x)) && Elements(Insert(s, x)) == Elements(s) + {x}
  {
    if s == [] {
      SortedCons(x, s);
    } else {
      SortedHead(s);
      if s[0] == x {
      } else if Less(x, s[0]) {
        forall y | y in s ensures Less(x, y) {
          assert y in Elements(s);
          if y != s[0] {
            assert y in Elements(s[1..]);
            LessIsTransitive(x, s[0], y);
          }
        }
        SortedCons(x, s);
      } else {
        LessIsTotal(s[0], x);
        InsertMeaning(s[1..], x);
        var rest := Insert(s[1..], x);
        forall y | y in rest ensures Less(s[0], y) {
          assert y in Elements(rest);
        }
        SortedCons(s[0], rest);
      }
    }
  }

  lemma NoElements(s: seq<string>)
    ensures Elements(s) == {} ==> s == []
  {
    if s != [] {
      assert s[0] in Elements(s);
    }
  }

  /** A sorted list is determined by its elements. */
  lemma {:induction false} SortedIsUnique(s: seq<string>, t: seq<string>)
    requires Sorted(s) && Sorted(t) && Elements(s) == Elements(t)
    ensures s == t
  {
    if s == [] {
      NoElements(t);
    } else {
      assert s[0] in Elements(t) && t != [];
      assert t[0] in Elements(s);
      SortedHead(s);
      SortedHead(t);
      SameHead(s[0], t[0], s[1..], t[1..]);
      LessIsStrict(s[0]);
      assert Elements(s[1..]) == Elements(s) - {s[0]} && Elements(t[1..]) == Elements(t) - {t[0]};
      SortedIsUnique(s[1..], t[1..]);
      assert s == [s[0]] + s[1..] && t == [t[0]] + t[1..];
    }
  }

  lemma SameHead(a: string, b: string, s: seq<string>, t: seq<string>)
    requires a == b || (a in t && b in s)
    requires (forall y :: y in s ==> Less(a, y)) && (forall y :: y in t ==> Less(b, y))
    ensures a == b
  {
    LessIsOneWay(a, b);
    assert a in t ==> Less(b, a);
    assert b in s ==> Less(a, b);
  }

  // ---- signals and windows --------------------------------------------------------------------------

  /** Milliseconds. */
  const WINDOW := 50

  datatype Report = Report(tables: seq<string>, at: int)

  datatype Signal =
    | Cancelled
    | Reported(report: Report)
    | Closed(at: int)
    | Elapsed(at: int)

  /** The reports announced together, when, and whether the deadline ended the window. */
  datatype Window = Window(reports: seq<Report>, at: int, byDeadline: bool)

  /** The windows of a run, from where it waits for a first report. */
  function Waiting(script: seq<Signal>): seq<Window>
    decreases |script|
  {
    if script == [] || !script[0].Reported? then []
    else Collecting(script[1..], [script[0].report], script[0].report.at + WINDOW)
  }

  /** The same from inside a window. */
  function Collecting(script: seq<Signal>, held: seq<Report>, deadline: int): seq<Window>
    decreases |script|
  {
    if script == [] then []
    else
      match script[0]
      case Cancelled => []
      case Reported(report) => Collecting(script[1..], held + [report], deadline)
      case Closed(at) => [Window(held, at, false)]
      case Elapsed(at) => [Window(held, at, true)] + Waiting(script[1..])
  }

  /** The tables of some reports. */
  ghost function Union(reports: seq<Report>): set<string> {
    set r, x | r in reports && x in r.tables :: x
  }

  datatype Emission = Emission(tables: seq<string>, at: int)

  /** An announcement is the sorted union of its window's reports. */
  ghost predicate Announces(e: Emission, w: Window) {
    Sorted(e.tables) && Elements(e.tables) == Union(w.reports) && e.at == w.at
  }

  ghost predicate AllAnnounce(emissions: seq<Emission>, windows: seq<Window>) {
    |emissions| == |windows| && forall i :: 0 <= i < |windows| ==> Announces(emissions[i], windows[i])
  }

  /** `tables.extend(more)`. */
  method Extend(tables: seq<string>, more: seq<string>) returns (r: seq<string>)
    requires Sorted(tables)
    ensures Sorted(r) && Elements(r) == Elements(tables) + Elements(more)
  {
    r := tables;
    for i := 0 to |more|
      invariant Sorted(r) && Elements(r) == Elements(tables) + Elements(more[..i])
    {
      InsertMeaning(r, more[i]);
      r := Insert(r, more[i]);
      assert more[..i + 1] == more[..i] + [more[i]];
    }
    assert more[..|more|] == more;
  }

  /** The inner loop: from the first report of a window to its end, if the script gets that far. */
  method Collect(script: seq<Signal>, from: nat, first: seq<string>, ghost begun: seq<Report>, deadline: int)
    returns (emission: Option<Emission>, next: nat, open: bool, ghost window: Window)
    requires from <= |script| && Sorted(first) && Elements(first) == Union(begun)
    requires forall i :: 0 <= i < |script| && script[i].Reported? ==> Sorted(script[i].report.tables)
    ensures from <= next <= |script|
    ensures emission.None? ==> Collecting(script[from..], begun, deadline) == []
    ensures emission.Some? ==> next > from && Announces(emission.value, window)
    ensures emission.Some? ==>
              Collecting(script[from..], begun, deadline) == [window] + (if open then Waiting(script[next..]) else [])
  {
    var tables := first;
    ghost var held := begun;
    next, open, window := from, true, Window(begun, 0, true);
    while next < |script|
      invariant from <= next <= |script| && Sorted(tables) && Elements(tables) == Union(held)
      invariant Collecting(script[from..], begun, deadline) == Collecting(script[next..], held, deadline)
    {
      assert script[next..][0] == script[next] && script[next..][1..] == script[next + 1..];
      match script[next]
      case Cancelled => return None, next, true, window;
      case Elapsed(at) => return Some(Emission(tables, at)), next + 1, true, Window(held, at, true);
      case Closed(at) => return Some(Emission(tables, at)), next + 1, false, Window(held, at, false);
      case Reported(report) =>
        UnionGrows(held, report);
        tables := Extend(tables, report.tables);
        held := held + [report];
        next := next + 1;
    }
    emission := None;
  }

  lemma UnionGrows(reports: seq<Report>, report: Report)
    ensures Union(reports + [report]) == Union(reports) + Elements(report.tables)
    ensures Union([report]) == Elements(report.tables)
  {
    assert forall r :: r in reports + [report] <==> r in reports || r == report;
  }

  /** The feed's loop over the signals it sees; it is still waiting when the script runs out. */
  method Run(script: seq<Signal>) returns (emissions: seq<Emission>)
    requires forall i :: 0 <= i < |script| && script[i].Reported? ==> Sorted(script[i].report.tables)
    ensures AllAnnounce(emissions, Waiting(script))
  {
    emissions := [];
    var i := 0;
    ghost var done: seq<Window> := [];
    while i < |script|
      invariant 0 <= i <= |script|
      invariant Waiting(script) == done + Waiting(script[i..])
      invariant AllAnnounce(emissions, done)
    {
      assert script[i..][0] == script[i] && script[i..][1..] == script[i + 1..];
      if !script[i].Reported? {
        return;
      }
      var first := script[i].report;
      UnionGrows([], first);
      assert [] + [first] == [first];
      var emission, next, open, window := Collect(script, i + 1, first.tables, [first], first.at + WINDOW);
      if emission.None? {
        return;
      }
      emissions := emissions + [emission.value];
      done := done + [window];
      if !open {
        return;
      }
      i := next;
    }
  }

  // ---- conservation ---------------------------------------------------------------------------------

  /** The reports received, in order. */
  function Received(script: seq<Signal>): seq<Report>
    decreases |script|
  {
    if script == [] then []
    else (if script[0].Reported? then [script[0].report] else []) + Received(script[1..])
  }

  function Flatten(windows: seq<Window>): seq<Report>
    decreases |windows|
  {
    if windows == [] then [] else windows[0].reports + Flatten(windows[1..])
  }

  /** Which signals can follow which: cancellation is only looked at between windows, nothing comes after the end. */
  predicate Fits(script: seq<Signal>, collecting: bool)
    decreases |script|
  {
    script == []
    || match script[0]
       case Cancelled => !collecting && |script| == 1
       case Closed(_) => |script| == 1
       case Elapsed(_) => collecting && Fits(script[1..], false)
       case Reported(_) => Fits(script[1..], true)
  }

  /** The reports of the window that is still open when the script runs out. */
  function Open(script: seq<Signal>, held: seq<Report>): seq<Report>
    decreases |script|
  {
    if script == [] then held
    else if script[0].Reported? then Open(script[1..], held + [script[0].report])
    else Open(script[1..], [])
  }

  lemma FlattenCons(w: Window, windows: seq<Window>)
    ensures Flatten([w] + windows) == w.reports + Flatten(windows)
  {
    assert ([w] + windows)[1..] == windows;
  }

  /** The windows partition the reports received: consecutive, none lost, none twice, none empty. */
  lemma {:induction false} WindowsPartition(script: seq<Signal>)
    requires Fits(script, false)
    ensures Flatten(Waiting(script)) + Open(script, []) == Received(script)
    ensures forall w :: w in Waiting(script) ==> w.reports != []
    decreases |script|
  {
    if script != [] {
      if script[0].Reported? {
        var first := script[0].report;
        assert [] + [first] == [first];
        CollectingPartitions(script[1..], [first], first.at + WINDOW);
      } else {
        assert script[1..] == [];
      }
    }
  }

  lemma {:induction false} CollectingPartitions(script: seq<Signal>, held: seq<Report>, deadline: int)
    requires Fits(script, true) && held != []
    ensures Flatten(Collecting(script, held, deadline)) + Open(script, held) == held + Received(script)
    ensures forall w :: w in Collecting(script, held, deadline) ==> w.reports != []
    decreases |script|
  {
    if script != [] {
      match script[0]
      case Reported(report) =>
        CollectingPartitions(script[1..], held + [report], deadline);
        assert held + [report] + Received(script[1..]) == held + Received(script);
      case Elapsed(at) =>
        WindowsPartition(script[1..]);
        FlattenCons(Window(held, at, true), Waiting(script[1..]));
      case Closed(at) =>
        assert script[1..] == [];
        FlattenCons(Window(held, at, false), []);
        assert [Window(held, at, false)] + [] == [Window(held, at, false)];
    }
  }

  /** When the feed ends, by a closed channel or a cancellation, everything received has been announced. */
  lemma EndAnnouncesAll(script: seq<Signal>)
    requires Fits(script, false) && script != []
    requires script[|script| - 1].Closed? || script[|script| - 1].Cancelled?
    ensures Flatten(Waiting(script)) == Received(script)
  {
    WindowsPartition(script);
    NothingOpen(script, []);
  }

  lemma {:induction false} NothingOpen(script: seq<Signal>, held: seq<Report>)
    requires script != [] && !script[|script| - 1].Reported?
    ensures Open(script, held) == []
    decreases |script|
  {
    if |script| > 1 {
      NothingOpen(script[1..], if script[0].Reported? then held + [script[0].report] else []);
    }
  }

  // ---- time -------------------------------------------------------------------------------------------

  function At(signal: Signal, now: int): int {
    match signal
    case Reported(report) => report.at
    case Closed(at) => at
    case Elapsed(at) => at
    case Cancelled => now
  }

  /** Time does not run backwards, and a sleep never ends before its deadline. */
  predicate Timed(script: seq<Signal>, now: int, deadline: Option<int>)
    decreases |script|
  {
    script == []
    || (now <= At(script[0], now)
        && (script[0].Elapsed? ==> deadline.Some? && deadline.value <= script[0].at)
        && Timed(script[1..], At(script[0], now), NextDeadline(script[0], deadline)))
  }

  function NextDeadline(signal: Signal, deadline: Option<int>): Option<int> {
    if signal.Reported? then (if deadline.Some? then deadline else Some(signal.report.at + WINDOW)) else None
  }

  /** When the window before the `i`-th one was announced. */
  function Before(windows: seq<Window>, i: nat, now: int): int
    requires i < |windows|
  {
    if i == 0 then now else windows[i - 1].at
  }

  /** A window that its deadline ended lasted at least `WINDOW` after whatever came before it. */
  ghost predicate Spaced(windows: seq<Window>, now: int) {
    forall i :: 0 <= i < |windows| && windows[i].byDeadline ==> Before(windows, i, now) + WINDOW <= windows[i].at
  }

  lemma SpacedCons(w: Window, windows: seq<Window>, now: int)
    requires Spaced(windows, w.at) && (w.byDeadline ==> now + WINDOW <= w.at)
    ensures Spaced([w] + windows, now)
  {
    var all := [w] + windows;
    forall i | 0 <= i < |all| && all[i].byDeadline ensures Before(all, i, now) + WINDOW <= all[i].at {
      if i > 0 {
        assert all[i] == windows[i - 1];
        assert Before(all, i, now) == Before(windows, i - 1, w.at);
      }
    }
  }

  lemma {:induction false} WaitingIsSpaced(script: seq<Signal>, now: int)
    requires Timed(script, now, None)
    ensures Spaced(Waiting(script), now)
    decreases |script|
  {
    if script != [] && script[0].Reported? {
      CollectingIsSpaced(script[1..], [script[0].report], now, script[0].report.at, script[0].report.at + WINDOW);
    }
  }

  lemma {:induction false} CollectingIsSpaced(script: seq<Signal>, held: seq<Report>, start: int, now: int, deadline: int)
    requires start + WINDOW <= deadline && Timed(script, now, Some(deadline))
    ensures Spaced(Collecting(script, held, deadline), start)
    decreases |script|
  {
    if script != [] {
      match script[0]
      case Reported(report) => CollectingIsSpaced(script[1..], held + [report], start, report.at, deadline);
      case Elapsed(at) =>
        WaitingIsSpaced(script[1..], at);
        SpacedCons(Window(held, at, true), Waiting(script[1..]), start);
      case _ =>
    }
  }

  /** Any `k` consecutive announcements that a deadline ended span at least `k - 1` windows of time. */
  lemma {:induction false} DeadlinesSpan(script: seq<Signal>, now: int, first: nat, last: nat)
    requires Timed(script, now, None) && first <= last < |Waiting(script)|
    requires forall i :: first <= i <= last ==> Waiting(script)[i].byDeadline
    ensures (last - first) * WINDOW <= Waiting(script)[last].at - Waiting(script)[first].at
    decreases last
  {
    if first < last {
      DeadlinesSpan(script, now, first, last - 1);
      WaitingIsSpaced(script, now);
      assert Waiting(script)[last].byDeadline;
    }
  }

  /** An ideal scheduler: a window's sleep ends at its deadline, and nothing else is taken after it. */
  predicate Ideal(script: seq<Signal>, deadline: Option<int>)
    decreases |script|
  {
    script == []
    || ((deadline.Some? && !script[0].Cancelled? ==> At(script[0], deadline.value) <= deadline.value)
        && Ideal(script[1..], NextDeadline(script[0], deadline)))
  }

  /** Each report of a window was received at most `WINDOW` before the window was announced. */
  predicate Prompt(w: Window) {
    forall i :: 0 <= i < |w.reports| ==> w.at - WINDOW <= w.reports[i].at <= w.at
  }

  /** Then every report is announced within one window of its receipt, however steady the stream. */
  lemma {:induction false} EveryReportIsPrompt(script: seq<Signal>, now: int)
    requires Timed(script, now, None) && Ideal(script, None)
    ensures forall w :: w in Waiting(script) ==> Prompt(w)
    decreases |script|
  {
    if script != [] && script[0].Reported? {
      var first := script[0].report;
      CollectingIsPrompt(script[1..], [first], first.at, first.at + WINDOW);
    }
  }

  lemma {:induction false} CollectingIsPrompt(script: seq<Signal>, held: seq<Report>, now: int, deadline: int)
    requires Timed(script, now, Some(deadline)) && Ideal(script, Some(deadline))
    requires deadline - WINDOW <= now && forall i :: 0 <= i < |held| ==> deadline - WINDOW <= held[i].at <= now
    ensures forall w :: w in Collecting(script, held, deadline) ==> Prompt(w)
    decreases |script|
  {
    if script != [] {
      match script[0]
      case Reported(report) =>
        var more := held + [report];
        assert forall i :: 0 <= i < |more| ==> more[i] == if i < |held| then held[i] else report;
        CollectingIsPrompt(script[1..], more, report.at, deadline);
      case Elapsed(at) => EveryReportIsPrompt(script[1..], at);
      case _ =>
    }
  }
}
