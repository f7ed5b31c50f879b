/** What each step of the chain upstream does, told on the fetches, the calls and the entries
    of the cache, in every reachable state. */
module ChainFetchEffects {
  import opened Common
  import opened Payloads
  import opened OptionChains
  import opened OptionChainLaws
  import opened RecencyCaches
  import opened ChainFetches
  import opened ChainFetchGuarantees

  /** The fetch for that key that still holds it. */
  ghost predicate IsUnderWay(s: State, key: Key, f: nat) {
    f < |s.fetches| && s.fetches[f].key == key && !s.fetches[f].finished
  }

  ghost function UnderWay(s: State): set<nat> {
    set f | 0 <= f < |s.fetches| && !s.fetches[f].finished
  }

  /** The entry of that key, not yet expired. */
  ghost predicate IsCached(s: State, key: Key, now: real, e: ChainEntry) {
    e in s.cache && e.key == key && now < e.value.expires
  }

  /** A lookup drops what has expired and nothing else; what it finds becomes the most recently
      used, and all others keep their order. */
  ghost predicate CacheLookedUp(before: seq<ChainEntry>, after: seq<ChainEntry>, key: Key, now: real) {
    && (forall e :: e in after <==> e in before && now < e.value.expires)
    && Others(after, key) == Others(Filter(before, Live(now)), key)
    && ((exists e :: e in after && e.key == key) ==> after[|after| - 1].key == key)
  }

  /** The one call a request adds, and the fetch it may start. */
  ghost predicate RequestAnswered(c: Config, s: State, r: State, key: Key, now: real, at: real) {
    if exists e :: IsCached(s, key, now, e) then
      && r.fetches == s.fetches
      && exists e :: IsCached(s, key, now, e) && r.calls == s.calls + [Answered(Delivered(Reevaluated(e.value.chain, at, c.staleAfter)))]
    else if exists f :: IsUnderWay(s, key, f) then
      && r.fetches == s.fetches
      && exists f :: IsUnderWay(s, key, f) && r.calls == s.calls + [Waiting(f)]
    else if |UnderWay(s)| >= c.maxInflight then
      r.fetches == s.fetches && r.calls == s.calls + [Answered(Unavailable)]
    else
      r.fetches == s.fetches + [Fetch(key, None, false)] && r.calls == s.calls + [Waiting(|s.fetches|)]
  }

  lemma CachedIff(s: State, key: Key, now: real)
    requires Distinct(s.cache)
    ensures forall e :: IsCached(s, key, now, e) <==> Holds(s, key, now) == Some(e)
  {
    FilterKeepsDistinct(s.cache, Live(now));
    var swept := Filter(s.cache, Live(now));
    forall e
      ensures IsCached(s, key, now, e) <==> Holds(s, key, now) == Some(e)
    {
      if IsCached(s, key, now, e) {
        assert e in swept;
        DistinctFind(swept, e);
      }
    }
  }

  lemma UnderWayIff(c: Config, s: State, key: Key)
    requires RegistryOk(c, s)
    ensures forall f: nat :: IsUnderWay(s, key, f) <==> key in s.inflight && s.inflight[key] == f
    ensures |UnderWay(s)| == |s.inflight|
  {
    InflightIsBounded(c, s);
    forall f: nat
      ensures IsUnderWay(s, key, f) <==> key in s.inflight && s.inflight[key] == f
    {
      if IsUnderWay(s, key, f) {
        assert FetchOk(s.inflight, s.fetches, f);
      }
      if key in s.inflight && s.inflight[key] == f {
        assert SlotOk(s.inflight, s.fetches, key);
      }
    }
  }

  lemma LookupMovesAndPrunes(s: State, key: Key, now: real)
    requires Distinct(s.cache)
    ensures CacheLookedUp(s.cache, Looked(s, key, now).cache, key, now)
  {
    hide Touched, Others, Find, Filter, Total;
    FilterKeepsDistinct(s.cache, Live(now));
    var swept := Filter(s.cache, Live(now));
    TouchedMovesToTheEnd(swept, key);
    if e :| e in Looked(s, key, now).cache && e.key == key {
      var i :| 0 <= i < |swept| && swept[i] == e;
    }
  }

  lemma ReachableIsDistinct(c: Config, s: State)
    requires Inv(c, s)
    ensures Distinct(s.cache) && RegistryOk(c, s)
  {
    hide RegistryOk;
    BoundedIsRecentPartOfStack(s.log, c.bounds);
  }

  /** A request is a hit exactly if an unexpired entry of its key is cached; failing that it
      joins the fetch under way for its key; failing that it is refused exactly if as many
      fetches are under way as may be; and only then it starts one. */
  lemma RequestEffect(c: Config, steps: seq<Step>, key: Key, now: real, at: real)
    requires ValidConfig(c) && CanRun(c, steps)
    ensures var s := Run(c, steps);
            var r := Apply(c, s, Ask(key, now, at));
            RequestAnswered(c, s, r, key, now, at) && CacheLookedUp(s.cache, r.cache, key, now)
  {
    hide Run, CanRun, Inv, Reevaluated, Holds, CacheLookedUp, IsCached, IsUnderWay, UnderWay, RegistryOk;
    RunKeepsInv(c, steps);
    var s := Run(c, steps);
    ReachableIsDistinct(c, s);
    CachedIff(s, key, now);
    UnderWayIff(c, s, key);
    LookupMovesAndPrunes(s, key, now);
    assert Looked(s, key, now).fetches == s.fetches && Looked(s, key, now).calls == s.calls;
  }

  /** The lookup before a request is queued: the same hits, and nothing but the pruning else. */
  lemma LookUpEffect(c: Config, steps: seq<Step>, key: Key, now: real, at: real)
    requires ValidConfig(c) && CanRun(c, steps)
    ensures var s := Run(c, steps);
            var r := Apply(c, s, Step.LookUp(key, now, at));
            && r.fetches == s.fetches && r.inflight == s.inflight && CacheLookedUp(s.cache, r.cache, key, now)
            && if exists e :: IsCached(s, key, now, e)
               then exists e :: IsCached(s, key, now, e) && r.calls == s.calls + [Answered(Delivered(Reevaluated(e.value.chain, at, c.staleAfter)))]
               else r.calls == s.calls
  {
    hide Run, CanRun, Inv, Reevaluated, Holds, CacheLookedUp, IsCached, RegistryOk;
    RunKeepsInv(c, steps);
    var s := Run(c, steps);
    ReachableIsDistinct(c, s);
    CachedIff(s, key, now);
    LookupMovesAndPrunes(s, key, now);
  }

  /** Joining waits on the fetch under way for the key; without one it does nothing. */
  lemma JoinEffect(c: Config, steps: seq<Step>, key: Key)
    requires ValidConfig(c) && CanRun(c, steps)
    ensures var s := Run(c, steps);
            var r := Apply(c, s, Join(key));
            if exists f :: IsUnderWay(s, key, f)
            then exists f :: IsUnderWay(s, key, f) && r == s.(calls := s.calls + [Waiting(f)])
            else r == s
  {
    hide Run, CanRun, Inv, IsUnderWay, RegistryOk;
    RunKeepsInv(c, steps);
    var s := Run(c, steps);
    ReachableIsDistinct(c, s);
    UnderWayIff(c, s, key);
    if key in s.inflight {
      assert IsUnderWay(s, key, s.inflight[key]);
    }
  }

  /** The fetch has its outcome now, and all else about the fetches is as it was. */
  ghost predicate OnlyOutcome(s: State, r: State, f: nat, outcome: Outcome)
    requires f < |s.fetches|
  {
    && r.fetches == s.fetches[f := Fetch(s.fetches[f].key, Some(outcome), s.fetches[f].finished)]
    && r.inflight == s.inflight && r.calls == s.calls
  }

  /** The newest entry, behind the longest run of recent ones that leaves it room. */
  ghost predicate StoredLast(c: Config, before: seq<ChainEntry>, after: seq<ChainEntry>, e: ChainEntry) {
    && after != [] && after[|after| - 1] == e
    && IsSuffix(after[..|after| - 1], before)
    && Fits(after, c.bounds)
    && forall k :: 0 <= k < |before| - (|after| - 1) ==> !Fits(before[k..] + [e], c.bounds)
  }

  /** A response that is a chain completes its fetch with it, and is cached from now on for the
      time to live unless it alone is too large; any other completes its fetch as malformed and
      leaves the cache alone. */
  lemma ResponseEffect(c: Config, steps: seq<Step>, f: nat, payload: Json, at: real, now: real)
    requires ValidConfig(c) && CanRun(c, steps) && IsRunning(Run(c, steps), f)
    ensures var s := Run(c, steps);
            var r := Apply(c, s, Respond(f, payload, at, now));
            var key := s.fetches[f].key;
            var read := Normalized(c.py, key.symbol, payload, key.expiration, at, c.staleAfter);
            && OnlyOutcome(s, r, f, if read.Ok? then Delivered(read.value) else Malformed)
            && if read.Ok? && c.size(read.value) <= c.bounds.bytes
               then StoredLast(c, s.cache, r.cache, Entry(key, CachedChain(now, now + c.ttl, read.value), c.size(read.value)))
               else r.cache == s.cache
  {
    hide Run, CanRun, Inv, Normalized, StoredLast, Trimmed, Placed;
    RunKeepsInv(c, steps);
    var s := Run(c, steps);
    var key := s.fetches[f].key;
    var read := Normalized(c.py, key.symbol, payload, key.expiration, at, c.staleAfter);
    if read.Ok? && c.size(read.value) <= c.bounds.bytes {
      StoreNeverReplaces(c, s, f);
      TrimmedStoresLast(c, s.cache, EntryFor(c, key, read.value, now));
    }
  }

  lemma TrimmedStoresLast(c: Config, before: seq<ChainEntry>, e: ChainEntry)
    requires c.bounds.entries >= 1 && e.bytes <= c.bounds.bytes && Others(before, e.key) == before
    ensures StoredLast(c, before, Trimmed(Placed(before, e), c.bounds), e)
  {
    hide Total, Others;
    JustStoredSurvives(before, e, c.bounds);
    var all := before + [e];
    var kept := Trimmed(all, c.bounds);
    TrimmedIsLongestFit(all, c.bounds);
    forall k | 0 <= k < |before| - (|kept| - 1)
      ensures !Fits(before[k..] + [e], c.bounds)
    {
      assert all[k..] == before[k..] + [e];
    }
  }

  /** A failed fetch is unavailable to all who wait on it, a killed one cancelled. */
  lemma FailureEffect(c: Config, s: State, f: nat)
    requires IsRunning(s, f)
    ensures OnlyOutcome(s, Apply(c, s, Fail(f)), f, Unavailable) && Apply(c, s, Fail(f)).cache == s.cache
    ensures OnlyOutcome(s, Apply(c, s, Kill(f)), f, Cancelled) && Apply(c, s, Kill(f)).cache == s.cache
  {
  }

  lemma OnlyEntryOfItsKey(cache: seq<ChainEntry>, e: ChainEntry)
    requires Distinct(cache) && cache != [] && cache[|cache| - 1] == e
    ensures e in cache && forall x :: x in cache && x.key == e.key ==> x == e
  {
  }

  /** What has just been stored is what the next lookup of its key gives, at any time before it
      expires; from then on it is gone. */
  lemma StoredIsFound(c: Config, steps: seq<Step>, f: nat, payload: Json, at: real, now: real, later: real)
    requires ValidConfig(c) && CanRun(c, steps) && IsRunning(Run(c, steps), f)
    ensures var s := Run(c, steps);
            var r := Apply(c, s, Respond(f, payload, at, now));
            var key := s.fetches[f].key;
            var read := Normalized(c.py, key.symbol, payload, key.expiration, at, c.staleAfter);
            read.Ok? && c.size(read.value) <= c.bounds.bytes ==>
              if later < now + c.ttl
              then Decide(c, r, key, later, later) == Hits(Reevaluated(read.value, later, c.staleAfter))
              else forall e :: !IsCached(r, key, later, e)
  {
    hide Run, CanRun, Inv, Normalized, Trimmed, Placed, Reevaluated, Fits, IsSuffix, RegistryOk;
    ResponseEffect(c, steps, f, payload, at, now);
    RunKeepsInv(c, steps);
    var s := Run(c, steps);
    StepKeepsInv(c, s, Respond(f, payload, at, now));
    var r := Apply(c, s, Respond(f, payload, at, now));
    ReachableIsDistinct(c, r);
    var key := s.fetches[f].key;
    CachedIff(r, key, later);
    var read := Normalized(c.py, key.symbol, payload, key.expiration, at, c.staleAfter);
    if read.Ok? && c.size(read.value) <= c.bounds.bytes {
      var e := Entry(key, CachedChain(now, now + c.ttl, read.value), c.size(read.value));
      OnlyEntryOfItsKey(r.cache, e);
      assert IsCached(r, key, later, e) <==> later < now + c.ttl;
    }
  }
}
