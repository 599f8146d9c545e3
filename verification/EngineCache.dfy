/** The bounded cache of database engines (core/db/session.py). */
module EngineCache {
  import opened Lists

  const MAX_ENGINES := 8

  // ---------------------------------------------------------------- recency

  function Without(urls: seq<string>, url: string): seq<string> { Filter(urls, Other(url)) }

  function Other(url: string): string -> bool { (u: string) => u != url }

  /** The distinct URLs of a history, least recently used first. */
  function Recent(history: seq<string>): seq<string> {
    if |history| == 0 then []
    else Without(Recent(history[..|history| - 1]), history[|history| - 1]) + [history[|history| - 1]]
  }

  function LastN<T>(xs: seq<T>, n: nat): seq<T> { if |xs| <= n then xs else xs[|xs| - n..] }

  /** The position of the last use of `url` in `history`, or -1. */
  function LastUse(history: seq<string>, url: string): int {
    if |history| == 0 then -1
    else if history[|history| - 1] == url then |history| - 1
    else LastUse(history[..|history| - 1], url)
  }

  lemma {:induction false} LastUseInRange(history: seq<string>, url: string)
    ensures -1 <= LastUse(history, url) < |history|
    ensures LastUse(history, url) >= 0 <==> url in history
    decreases |history|
  {
    if |history| == 0 {
    } else {
      var front, last := history[..|history| - 1], history[|history| - 1];
      LastUseInRange(front, url);
      assert history == front + [last];
    }
  }

  /** The URLs are ordered by strictly increasing last use, hence distinct. */
  predicate ByLastUse(history: seq<string>, urls: seq<string>) {
    forall i, j :: 0 <= i < j < |urls| ==> LastUse(history, urls[i]) < LastUse(history, urls[j])
  }

  lemma {:induction false} FilterKeepsOrder(history: seq<string>, urls: seq<string>, p: string -> bool)
    requires ByLastUse(history, urls)
    ensures ByLastUse(history, Filter(urls, p))
    decreases |urls|
  {
    if |urls| == 0 {
    } else {
      var front, last := urls[..|urls| - 1], urls[|urls| - 1];
      FilterKeepsOrder(history, front, p);
      var kept := Filter(front, p);
      forall i | 0 <= i < |kept| ensures LastUse(history, kept[i]) < LastUse(history, last) {
        FilterMember(front, p, kept[i]);
        var k :| 0 <= k < |front| && front[k] == kept[i];
        assert urls[k] == kept[i];
      }
    }
  }

  lemma RecentAppend(front: seq<string>, last: string)
    ensures Recent(front + [last]) == Without(Recent(front), last) + [last]
  {
    assert (front + [last])[..|front|] == front;
  }

  lemma MembersAppend(front: seq<string>, last: string)
    requires forall u :: u in Recent(front) <==> u in front
    ensures forall u :: u in Recent(front + [last]) <==> u in front + [last]
  {
    RecentAppend(front, last);
    forall u ensures u in Recent(front + [last]) <==> u in front + [last] { FilterMember(Recent(front), Other(last), u); }
  }

  lemma LastUseAppend(front: seq<string>, last: string, url: string)
    ensures LastUse(front + [last], url) == if url == last then |front| else LastUse(front, url)
  {
    assert (front + [last])[..|front|] == front;
  }

  /** One more access puts its URL last. */
  lemma LastUseMoves(front: seq<string>, last: string, rest: seq<string>)
    requires ByLastUse(front, rest) && last !in rest
    ensures ByLastUse(front + [last], rest + [last])
  {
    var urls := rest + [last];
    forall i, j | 0 <= i < j < |urls| ensures LastUse(front + [last], urls[i]) < LastUse(front + [last], urls[j]) {
      assert urls[i] in rest;
      LastUseAppend(front, last, urls[i]);
      LastUseAppend(front, last, urls[j]);
      LastUseInRange(front, urls[i]);
      if j < |rest| { assert urls[j] in rest; }
    }
  }

  lemma OrderAppend(front: seq<string>, last: string)
    requires ByLastUse(front, Recent(front))
    ensures ByLastUse(front + [last], Recent(front + [last]))
  {
    var rest := Without(Recent(front), last);
    RecentAppend(front, last);
    FilterKeepsOrder(front, Recent(front), Other(last));
    FilterMember(Recent(front), Other(last), last);
    LastUseMoves(front, last, rest);
  }

  /** `Recent` is what its name says: every URL of the history, once, in order of last use. */
  lemma {:induction false} RecentIsByLastUse(history: seq<string>)
    ensures ByLastUse(history, Recent(history))
    ensures forall u :: u in Recent(history) <==> u in history
    decreases |history|
  {
    if |history| == 0 {
      assert Recent(history) == [];
    } else {
      var front, last := history[..|history| - 1], history[|history| - 1];
      assert history == front + [last];
      RecentIsByLastUse(front);
      MembersAppend(front, last);
      OrderAppend(front, last);
    }
  }

  // ---------------------------------------------------------------- bounded recency

  lemma RecentIsDistinct(history: seq<string>)
    ensures Distinct(Recent(history))
  {
    RecentIsByLastUse(history);
    var urls := Recent(history);
    forall i, j | 0 <= i < j < |urls| ensures urls[i] != urls[j] {
      assert LastUse(history, urls[i]) < LastUse(history, urls[j]);
    }
  }

  lemma {:induction false} WithoutLength(urls: seq<string>, url: string)
    requires Distinct(urls)
    ensures |Without(urls, url)| == if url in urls then |urls| - 1 else |urls|
    ensures url !in urls ==> Without(urls, url) == urls
    decreases |urls|
  {
    if |urls| == 0 {
    } else {
      var front, last := urls[..|urls| - 1], urls[|urls| - 1];
      WithoutLength(front, url);
      assert urls == front + [last];
      assert last !in front;
    }
  }

  lemma LastNOfConcat<T>(xs: seq<T>, ys: seq<T>, n: nat)
    requires |ys| >= n
    ensures LastN(xs + ys, n) == LastN(ys, n)
  {
    var k := |ys| - n;
    assert (xs + ys)[|xs| + k..] == ys[k..];
  }

  lemma TailIsDistinct(urls: seq<string>, cut: nat)
    requires Distinct(urls) && cut <= |urls|
    ensures Distinct(urls[cut..])
  {
  }

  /** Using `url` next, it is enough to know the newest `n` URLs. */
  lemma RecencyIsLocal(urls: seq<string>, url: string, n: nat)
    requires Distinct(urls) && n > 0
    ensures LastN(Without(urls, url) + [url], n) == LastN(Without(LastN(urls, n), url) + [url], n)
  {
    if |urls| > n {
      var cut := |urls| - n;
      assert urls == urls[..cut] + urls[cut..];
      FilterConcat(urls[..cut], urls[cut..], Other(url));
      TailIsDistinct(urls, cut);
      WithoutLength(urls[cut..], url);
      var older, newest := Without(urls[..cut], url), Without(urls[cut..], url);
      assert (older + newest) + [url] == older + (newest + [url]);
      LastNOfConcat(older, newest + [url], n);
    }
  }

  /** One access, seen from the keys the cache holds. */
  lemma NextRecent(history: seq<string>, url: string)
    ensures LastN(Recent(history + [url]), MAX_ENGINES)
         == LastN(Without(LastN(Recent(history), MAX_ENGINES), url) + [url], MAX_ENGINES)
  {
    assert (history + [url])[..|history|] == history;
    RecentIsDistinct(history);
    RecencyIsLocal(Recent(history), url, MAX_ENGINES);
  }

  /** The newest are eight, or all there are, and were used later than any other. */
  lemma NewestEight(history: seq<string>)
    ensures var kept := LastN(Recent(history), MAX_ENGINES);
            && |kept| <= 8 && (|kept| < 8 ==> forall u :: u in history ==> u in kept)
            && (forall u :: u in kept ==> u in history)
            && (forall u, v :: u in kept && v in history && v !in kept ==> LastUse(history, v) < LastUse(history, u))
  {
    RecentIsByLastUse(history);
    var urls, kept := Recent(history), LastN(Recent(history), MAX_ENGINES);
    var cut := |urls| - |kept|;
    forall u, v | u in kept && v in history && v !in kept ensures LastUse(history, v) < LastUse(history, u) {
      var i, j :| 0 <= i < |kept| && kept[i] == u && 0 <= j < |urls| && urls[j] == v;
      assert forall k :: cut <= k < |urls| ==> urls[k] == kept[k - cut] && urls[k] in kept;
      assert urls[cut + i] == u;
    }
  }

  // ---------------------------------------------------------------- the cache as it runs

  /** The engines behind the cached URLs: one each, none of them disposed; every engine ever
      created is cached or was disposed exactly once. */
  ghost predicate EnginesOk(order: seq<string>, engines: map<string, nat>, created: nat, disposed: seq<nat>) {
    && Distinct(order)
    && (forall u :: u in engines <==> u in order)
    && (forall u, v :: u in engines && v in engines && engines[u] == engines[v] ==> u == v)
    && (forall u :: u in engines ==> engines[u] < created && engines[u] !in disposed)
    && Distinct(disposed)
    && (forall e :: e in disposed ==> e < created)
    && |order| + |disposed| == created
  }

  lemma AddEngine(order: seq<string>, engines: map<string, nat>, created: nat, disposed: seq<nat>, url: string)
    requires EnginesOk(order, engines, created, disposed) && url !in engines
    ensures EnginesOk(order + [url], engines[url := created], created + 1, disposed)
  {
  }

  lemma EvictEngine(order: seq<string>, engines: map<string, nat>, created: nat, disposed: seq<nat>)
    requires EnginesOk(order, engines, created, disposed) && |order| > 0
    ensures order[0] in engines
    ensures EnginesOk(order[1..], engines - {order[0]}, created, disposed + [engines[order[0]]])
  {
    var url := order[0];
    forall u ensures u in engines - {url} <==> u in order[1..] {
      if u in order && u != url {
        var i :| 0 <= i < |order| && order[i] == u;
        assert order[1..][i - 1] == u;
      }
      if u in order[1..] {
        var i :| 0 <= i < |order| - 1 && order[1..][i] == u;
        assert order[i + 1] == u && order[0] != order[i + 1];
      }
    }
  }

  lemma TouchEngine(order: seq<string>, engines: map<string, nat>, created: nat, disposed: seq<nat>, url: string)
    requires EnginesOk(order, engines, created, disposed) && url in engines
    ensures EnginesOk(Without(order, url) + [url], engines, created, disposed)
  {
    var kept := Without(order, url);
    forall u ensures u in kept <==> u in order && u != url { FilterMember(order, Other(url), u); }
    WithoutLength(order, url);
    FilterDistinct(order, Other(url));
  }

  class Cache {
    // An ordered dictionary: its keys, oldest first, and the engine of each.
    var order: seq<string>
    var engines: map<string, nat>
    var created: nat              // engines are numbered as they are created
    var disposed: seq<nat>        // in order of disposal
    ghost var history: seq<string>

    /** The cache holds exactly the most recently used URLs, in recency order. */
    ghost predicate Valid()
      reads this
    {
      order == LastN(Recent(history), MAX_ENGINES) && EnginesOk(order, engines, created, disposed)
    }

    constructor ()
      ensures Valid() && history == [] && disposed == []
    {
      order, engines, created, disposed, history := [], map[], 0, [], [];
    }

    method MakeEngine(url: string) returns (engine: nat)
      requires Valid()
      modifies this
      ensures Valid() && history == old(history) + [url]
      ensures url in engines && engine == engines[url] && engine !in disposed
      ensures old(disposed) <= disposed
      ensures if url in old(engines)
              then engine == old(engines)[url] && created == old(created) && disposed == old(disposed)
              else engine == old(created) && created == old(created) + 1
    {
      NextRecent(history, url);
      WithoutLength(order, url);
      history := history + [url];
      if url in engines {
        engine := engines[url];
        MoveToEnd(url);
      } else {
        engine := created;
        created := created + 1;
        AddEngine(order, engines, engine, disposed, url);
        order, engines := order + [url], engines[url := engine];
        Evict(url);
      }
    }

    method MoveToEnd(url: string)
      requires EnginesOk(order, engines, created, disposed) && url in engines && |order| <= MAX_ENGINES
      modifies this`order
      ensures order == Without(old(order), url) + [url] && |order| <= MAX_ENGINES
      ensures EnginesOk(order, engines, created, disposed)
    {
      TouchEngine(order, engines, created, disposed, url);
      WithoutLength(order, url);
      order := Without(order, url) + [url];
    }

    /** Dispose of the oldest engines until the cache fits; the newest one stays. */
    method Evict(newest: string)
      requires EnginesOk(order, engines, created, disposed)
      requires |order| > 0 && order[|order| - 1] == newest && newest in engines
      modifies this`order, this`engines, this`disposed
      ensures order == LastN(old(order), MAX_ENGINES) && EnginesOk(order, engines, created, disposed)
      ensures old(disposed) <= disposed && newest in engines && engines[newest] == old(engines)[newest]
    {
      while |order| > MAX_ENGINES
        invariant 0 < |order| && order[|order| - 1] == newest && newest in engines && engines[newest] == old(engines)[newest]
        invariant LastN(order, MAX_ENGINES) == LastN(old(order), MAX_ENGINES)
        invariant EnginesOk(order, engines, created, disposed)
        invariant old(disposed) <= disposed
        decreases |order|
      {
        EvictEngine(order, engines, created, disposed);
        LastNOfConcat(order[..1], order[1..], MAX_ENGINES);
        assert order == order[..1] + order[1..];
        var evicted := order[0];
        disposed := disposed + [engines[evicted]];
        order, engines := order[1..], engines - {evicted};
      }
    }
  }
}
