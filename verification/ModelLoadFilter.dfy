/** Dropping out-of-date news about model loading: three subscriptions and a query share one filter. */
module ModelLoadFilter {
  import opened Base

  datatype Source = Progress | Status | Failure | Query

  /** News of one load of one vault session; a status outside a load has no load id. */
  datatype News = News(source: Source, vaultGeneration: int, loadId: Option<int>, payload: string)

  datatype Key = Key(vaultGeneration: int, loadId: int)

  function KeyOf(n: News): Key {
    Key(n.vaultGeneration, if n.loadId.Some? then n.loadId.value else -1)
  }

  /** Lexicographic order. */
  predicate AtMost(a: Key, b: Key) {
    a.vaultGeneration < b.vaultGeneration || (a.vaultGeneration == b.vaultGeneration && a.loadId <= b.loadId)
  }

  predicate Passes(latest: Option<Key>, n: News) {
    latest.Some? ==> AtMost(latest.value, KeyOf(n))
  }

  class LoadFilter {
    var latestVaultGeneration: Option<int>
    var latestLoadId: int

    function Latest(): Option<Key>
      reads this
    {
      if latestVaultGeneration.None? then None else Some(Key(latestVaultGeneration.value, latestLoadId))
    }

    constructor ()
      ensures Latest() == None
    {
      latestVaultGeneration, latestLoadId := None, -1;
    }

    /** `acceptsModelLoadEvent`: the key that passes becomes the latest. */
    method AcceptsModelLoadEvent(vaultGeneration: int, loadId: int) returns (accepted: bool)
      modifies this
      ensures accepted <==> old(Latest()).None? || AtMost(old(Latest()).value, Key(vaultGeneration, loadId))
      ensures Latest() == if accepted then Some(Key(vaultGeneration, loadId)) else old(Latest())
    {
      if latestVaultGeneration.None? || vaultGeneration > latestVaultGeneration.value {
        latestVaultGeneration := Some(vaultGeneration);
        latestLoadId := loadId;
        return true;
      }
      if vaultGeneration < latestVaultGeneration.value || loadId < latestLoadId {
        return false;
      }
      latestLoadId := loadId;
      return true;
    }

    /** `modelLoadStatusAsync` after its answer arrived: the status, or nothing when it is out of date. */
    method StatusAnswered(status: News) returns (answer: Option<News>)
      modifies this
      ensures answer == if Passes(old(Latest()), status) then Some(status) else None
      ensures Latest() == if Passes(old(Latest()), status) then Some(KeyOf(status)) else old(Latest())
    {
      var loadId := if status.loadId.Some? then status.loadId.value else -1;
      if latestVaultGeneration.Some?
         && (status.vaultGeneration < latestVaultGeneration.value
             || (status.vaultGeneration == latestVaultGeneration.value && loadId < latestLoadId)) {
        return None;
      }
      latestVaultGeneration := Some(status.vaultGeneration);
      latestLoadId := loadId;
      return Some(status);
    }

    /** Whichever way news comes in, it is delivered by the same rule. */
    method Receive(n: News) returns (delivered: bool)
      modifies this
      ensures delivered <==> Passes(old(Latest()), n)
      ensures Latest() == After(old(Latest()), [n])
    {
      if n.source.Query? {
        var answer := StatusAnswered(n);
        delivered := answer.Some?;
      } else {
        delivered := AcceptsModelLoadEvent(n.vaultGeneration, if n.loadId.Some? then n.loadId.value else -1);
      }
    }

    /** Any interleaving of the subscriptions and the query. */
    method ReceiveAll(news: seq<News>) returns (delivered: seq<News>)
      modifies this
      ensures delivered == Delivered(old(Latest()), news) && Latest() == After(old(Latest()), news)
    {
      delivered := [];
      ghost var start := Latest();
      for i := 0 to |news|
        invariant delivered == Delivered(start, news[..i]) && Latest() == After(start, news[..i])
      {
        assert news[..i + 1] == news[..i] + [news[i]];
        AfterSnoc(start, news[..i], news[i]);
        var passes := Receive(news[i]);
        if passes {
          delivered := delivered + [news[i]];
        }
      }
      assert news[..|news|] == news;
    }
  }

  /** The latest key after some news. */
  function After(latest: Option<Key>, news: seq<News>): Option<Key>
    decreases |news|
  {
    if news == [] then latest
    else After(if Passes(latest, news[0]) then Some(KeyOf(news[0])) else latest, news[1..])
  }

  /** The news delivered, in order. */
  function Delivered(latest: Option<Key>, news: seq<News>): seq<News>
    decreases |news|
  {
    if news == [] then []
    else if Passes(latest, news[0]) then [news[0]] + Delivered(Some(KeyOf(news[0])), news[1..])
    else Delivered(latest, news[1..])
  }

  lemma {:induction false} AfterSnoc(latest: Option<Key>, news: seq<News>, n: News)
    ensures After(latest, news + [n]) ==
              if Passes(After(latest, news), n) then Some(KeyOf(n)) else After(latest, news)
    ensures Delivered(latest, news + [n]) ==
              Delivered(latest, news) + (if Passes(After(latest, news), n) then [n] else [])
    decreases |news|
  {
    if news == [] {
      assert [] + [n] == [n] && [n][1..] == [];
    } else {
      assert (news + [n])[1..] == news[1..] + [n];
      AfterSnoc(if Passes(latest, news[0]) then Some(KeyOf(news[0])) else latest, news[1..], n);
    }
  }

  /** `k` is the largest key of the news. */
  ghost predicate IsMax(k: Key, news: seq<News>) {
    (exists n :: n in news && KeyOf(n) == k) && forall n :: n in news ==> AtMost(KeyOf(n), k)
  }

  /** The latest key is the largest one seen. */
  lemma {:induction false} LatestIsMax(news: seq<News>)
    ensures if news == [] then After(None, news).None? else After(None, news).Some? && IsMax(After(None, news).value, news)
    decreases |news|
  {
    if news != [] {
      var before, n := news[..|news| - 1], news[|news| - 1];
      assert news == before + [n];
      LatestIsMax(before);
      AfterSnoc(None, before, n);
      assert forall x :: x in news <==> x in before || x == n;
    }
  }

  /** News is delivered exactly when it is not below anything seen before it, delivered or not. */
  lemma DeliveredIff(before: seq<News>, n: News)
    ensures Delivered(None, before + [n]) == Delivered(None, before) + [n]
            <==> forall x :: x in before ==> AtMost(KeyOf(x), KeyOf(n))
  {
    LatestIsMax(before);
    AfterSnoc(None, before, n);
    if before != [] {
      var top := After(None, before).value;
      var x :| x in before && KeyOf(x) == top;
      if AtMost(top, KeyOf(n)) {
        forall y | y in before ensures AtMost(KeyOf(y), KeyOf(n)) {
          assert AtMost(KeyOf(y), top);
        }
      }
    }
    assert Delivered(None, before) + [] != Delivered(None, before) + [n];
  }

  /** The last delivered key does not depend on the order of arrival. */
  lemma OrderDoesNotMatter(a: seq<News>, b: seq<News>)
    requires forall n :: n in a <==> n in b
    ensures After(None, a) == After(None, b)
  {
    LatestIsMax(a);
    LatestIsMax(b);
    NoneOfNone(a, b);
    NoneOfNone(b, a);
    if a != [] {
      var x :| x in a && KeyOf(x) == After(None, a).value;
      var y :| y in b && KeyOf(y) == After(None, b).value;
      assert AtMost(KeyOf(x), KeyOf(y)) && AtMost(KeyOf(y), KeyOf(x));
    }
  }

  lemma NoneOfNone(a: seq<News>, b: seq<News>)
    requires forall n :: n in b ==> n in a
    ensures a == [] ==> b == []
  {
    if b != [] {
      var n := b[0];
      assert n in b;
    }
  }

  /** What was delivered last carries the latest key, and delivered keys never go back. */
  lemma {:induction false} DeliveredKeysRise(news: seq<News>)
    ensures var d := Delivered(None, news);
            (d == [] <==> news == [])
            && (d != [] ==> After(None, news) == Some(KeyOf(d[|d| - 1])))
            && forall i, j :: 0 <= i < j < |d| ==> AtMost(KeyOf(d[i]), KeyOf(d[j]))
    decreases |news|
  {
    if news != [] {
      var before, n := news[..|news| - 1], news[|news| - 1];
      assert news == before + [n];
      DeliveredKeysRise(before);
      AfterSnoc(None, before, n);
      var d := Delivered(None, before);
      if d != [] && Passes(After(None, before), n) {
        forall i | 0 <= i < |d| ensures AtMost(KeyOf(d[i]), KeyOf(n)) {
          assert AtMost(KeyOf(d[i]), KeyOf(d[|d| - 1]));
        }
      }
    }
  }
}
