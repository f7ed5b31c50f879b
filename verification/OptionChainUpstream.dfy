/** The upstream object itself: its synchronous sections, updating its fields in place. */
module OptionChainUpstreams {
  import opened Common
  import opened Payloads
  import opened OptionChains
  import opened OptionChainLaws
  import opened RecencyCaches
  import opened ChainFetches
  import opened ChainFetchGuarantees

  class OptionChainUpstream {
    const config: Config
    var cache: seq<ChainEntry>
    var cacheBytes: int
    var inflight: map<Key, nat>
    var fetches: seq<Fetch>
    var calls: seq<Call>
    ghost var log: seq<Access<Key, CachedChain>>

    ghost function Model(): State
      reads this
    {
      State(cache, inflight, fetches, calls, log)
    }

    ghost predicate Valid()
      reads this
    {
      ValidConfig(config) && Inv(config, Model()) && cacheBytes == Total(cache)
    }

    constructor (config: Config)
      requires ValidConfig(config)
      ensures this.config == config && Model() == EMPTY && Valid()
    {
      this.config := config;
      cache, cacheBytes, inflight, fetches, calls, log := [], 0, map[], [], [], [];
    }

    method PruneExpired(now: real)
      requires Distinct(cache) && cacheBytes == Total(cache)
      modifies this`cache, this`cacheBytes
      ensures cache == Filter(old(cache), Live(now)) && cacheBytes == Total(cache)
    {
      var expired := ExpiredKeys(now);
      for i := 0 to |expired|
        invariant Distinct(cache) && cacheBytes == Total(cache)
        invariant Filter(cache, Live(now)) == Filter(old(cache), Live(now))
        invariant forall k :: i <= k < |expired| ==> HasKey(cache, expired[k])
        invariant forall e :: e in cache && e.key in expired ==> !Live(now)(e)
        invariant forall e :: e in cache && !Live(now)(e) ==> e.key in expired[i..]
        invariant forall j, k :: 0 <= j < k < |expired| ==> expired[j] != expired[k]
      {
        var e := Find(cache, expired[i]).value;
        TakingUnwantedOut(cache, e, Live(now));
        OthersKeepOtherKeys(cache, e.key);
        cache := Others(cache, e.key);
        cacheBytes := cacheBytes - e.bytes;
      }
      FilterKeepsAll(cache, Live(now));
    }

    method ExpiredKeys(now: real) returns (expired: seq<Key>)
      requires Distinct(cache)
      ensures forall k :: 0 <= k < |expired| ==> HasKey(cache, expired[k])
      ensures forall e :: e in cache ==> (e.key in expired <==> !Live(now)(e))
      ensures forall j, k :: 0 <= j < k < |expired| ==> expired[j] != expired[k]
    {
      expired := [];
      for i := 0 to |cache|
        invariant forall k :: 0 <= k < |expired| ==> HasKey(cache[..i], expired[k])
        invariant forall j :: 0 <= j < i ==> (cache[j].key in expired <==> !Live(now)(cache[j]))
        invariant forall j, k :: 0 <= j < k < |expired| ==> expired[j] != expired[k]
      {
        if cache[i].value.expires <= now {
          expired := expired + [cache[i].key];
        }
      }
    }

    method EvictToBounds()
      requires cacheBytes == Total(cache)
      modifies this`cache, this`cacheBytes
      ensures cache == Trimmed(old(cache), config.bounds) && cacheBytes == Total(cache)
    {
      while |cache| > config.bounds.entries || cacheBytes > config.bounds.bytes
        invariant cacheBytes == Total(cache)
        invariant Trimmed(cache, config.bounds) == Trimmed(old(cache), config.bounds)
        decreases |cache|
      {
        cacheBytes := cacheBytes - cache[0].bytes;
        cache := cache[1..];
      }
    }

    method Insert(e: ChainEntry)
      requires Distinct(cache) && cacheBytes == Total(cache)
      modifies this`cache, this`cacheBytes
      ensures cache == Trimmed(Placed(old(cache), e), config.bounds) && cacheBytes == Total(cache)
    {
      hide Trimmed;
      TotalOfBoth(Others(cache, e.key), [e]);
      assert Total([e]) == e.bytes;
      var previous := Find(cache, e.key);
      if previous.Some? {
        TakingOneOut(cache, previous.value);
        cache := Others(cache, e.key);
        cacheBytes := cacheBytes - previous.value.bytes;
      } else {
        NothingToTakeOut(cache, e.key);
      }
      cache := cache + [e];
      cacheBytes := cacheBytes + e.bytes;
      EvictToBounds();
    }

    /** The synchronous cache lookup: expired entries go, a hit becomes the most recently used. */
    method CachedOptionChain(key: Key, now: real, at: real) returns (r: Option<OptionChain>)
      requires Valid()
      modifies this`cache, this`cacheBytes, this`log
      ensures Model() == Looked(old(Model()), key, now)
      ensures cacheBytes == Total(cache)
      ensures r == match Holds(old(Model()), key, now)
                   case None => None
                   case Some(e) => Some(Reevaluated(e.value.chain, at, config.staleAfter))
    {
      hide Inv, Total, Reevaluated;
      CacheIsDistinct();
      PruneExpired(now);
      log := log + [Swept(Live(now))];
      var found := Find(cache, key);
      if found.None? {
        return None;
      }
      FilterKeepsDistinct(old(cache), Live(now));
      TouchedMovesToTheEnd(cache, key);
      cache := Touched(cache, key);
      log := log + [Used(key)];
      r := Some(Reevaluated(found.value.value.chain, at, config.staleAfter));
    }

    lemma CacheIsDistinct()
      requires Valid()
      ensures Distinct(cache)
    {
      BoundedIsRecentPartOfStack(log, config.bounds);
    }

    method LookUp(key: Key, now: real, at: real) returns (r: Option<OptionChain>)
      requires Valid()
      modifies this
      ensures Model() == Apply(config, old(Model()), ChainFetches.Step.LookUp(key, now, at))
      ensures Valid()
      ensures r.Some? ==> IsReadNow(config, key, r.value, at)
    {
      hide Inv, Total, Holds, Reevaluated, IsReadNow;
      StepKeepsInv(config, Model(), ChainFetches.Step.LookUp(key, now, at));
      if Holds(Model(), key, now).Some? {
        HeldIsReadNow(config, Model(), key, now, at);
      }
      r := CachedOptionChain(key, now, at);
      if r.Some? {
        calls := calls + [Answered(Delivered(r.value))];
      }
    }

    /** A shielded wait on a fetch already under way; joining starts nothing. */
    method JoinInflightOptionChain(key: Key) returns (joined: Option<nat>)
      requires Valid()
      modifies this`calls
      ensures Model() == Apply(config, old(Model()), Join(key))
      ensures Valid()
      ensures joined.Some? ==> |calls| == |old(calls)| + 1 && calls[|calls| - 1] == Waiting(joined.value)
    {
      hide Inv;
      StepKeepsInv(config, Model(), Join(key));
      if key !in inflight {
        return None;
      }
      calls := calls + [Waiting(inflight[key])];
      joined := Some(inflight[key]);
    }

    /** A request up to its first await: a hit, a join, a refusal, or a fetch of its own. */
    method GetOptionChain(key: Key, now: real, at: real) returns (decision: Decision)
      requires Valid()
      modifies this
      ensures Model() == Apply(config, old(Model()), Ask(key, now, at))
      ensures Valid()
      ensures decision == Decide(config, old(Model()), key, now, at)
    {
      hide Inv, Total, Holds, Reevaluated;
      StepKeepsInv(config, Model(), Ask(key, now, at));
      var cached := CachedOptionChain(key, now, at);
      if cached.Some? {
        calls := calls + [Answered(Delivered(cached.value))];
        return Hits(cached.value);
      }
      if key in inflight {
        calls := calls + [Waiting(inflight[key])];
        return Joins(inflight[key]);
      }
      if |inflight| >= config.maxInflight {
        calls := calls + [Answered(Unavailable)];
        return Refuses;
      }
      decision := Starts(|fetches|);
      calls := calls + [Waiting(|fetches|)];
      inflight := inflight[key := |fetches|];
      fetches := fetches + [Fetch(key, None, false)];
    }

    /** The fetch after its await: normalize, store if it fits, complete. */
    method ProviderResponded(f: nat, payload: Json, at: real, now: real)
      requires Valid() && IsRunning(Model(), f)
      modifies this
      ensures Model() == Apply(config, old(Model()), Respond(f, payload, at, now))
      ensures Valid()
    {
      hide Inv, Total, Normalized, Trimmed, Placed;
      StepKeepsInv(config, Model(), Respond(f, payload, at, now));
      CacheIsDistinct();
      var key := fetches[f].key;
      var chain := NormalizeOptionChain(config.py, key.symbol, payload, key.expiration, at, config.staleAfter);
      if chain.Raises? {
        fetches := fetches[f := fetches[f].(outcome := Some(Malformed))];
        return;
      }
      if config.size(chain.value) <= config.bounds.bytes {
        var e := EntryFor(config, key, chain.value, now);
        Insert(e);
        log := log + [Stored(e)];
      }
      fetches := fetches[f := fetches[f].(outcome := Some(Delivered(chain.value)))];
    }

    method ProviderFailed(f: nat)
      requires Valid() && IsRunning(Model(), f)
      modifies this`fetches
      ensures Model() == Apply(config, old(Model()), Fail(f))
      ensures Valid()
    {
      hide Inv;
      StepKeepsInv(config, Model(), Fail(f));
      fetches := fetches[f := fetches[f].(outcome := Some(Unavailable))];
    }

    /** The completion callback. */
    method FinishFetch(f: nat)
      requires Valid() && Enabled(Model(), Finish(f))
      modifies this`fetches, this`inflight
      ensures Model() == Apply(config, old(Model()), Finish(f))
      ensures Valid()
      ensures inflight == old(inflight) - {fetches[f].key}
    {
      FinishKeepsRegistry(config, Model(), f);
      StepKeepsInv(config, Model(), Finish(f));
      hide Inv;
      var key := fetches[f].key;
      if key in inflight && inflight[key] == f {
        inflight := inflight - {key};
      }
      fetches := fetches[f := fetches[f].(finished := true)];
    }
  }

  lemma HeldIsReadNow(c: Config, s: State, key: Key, now: real, at: real)
    requires Inv(c, s) && Holds(s, key, now).Some?
    ensures IsReadNow(c, key, Reevaluated(Holds(s, key, now).value.value.chain, at, c.staleAfter), at)
  {
    hide IsReadNow, WasRead, Reevaluated;
    assert EntryOk(c, s.fetches, Holds(s, key, now).value);
    ReevaluatedReadIsReadNow(c, key, Holds(s, key, now).value.value.chain, at);
  }
}
