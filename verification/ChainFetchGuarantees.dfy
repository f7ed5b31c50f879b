/** What every interleaving of callers, fetches and callbacks keeps. */
module ChainFetchGuarantees {
  import opened Common
  import opened Payloads
  import opened OptionChains
  import opened OptionChainLaws
  import opened RecencyCaches
  import opened ChainFetches

  // ---------------------------------------------------------------------------------------
  // The registry of fetches in flight.
  // ---------------------------------------------------------------------------------------

  ghost predicate Registered(inflight: map<Key, nat>, fetches: seq<Fetch>, f: nat) {
    f < |fetches| && fetches[f].key in inflight && inflight[fetches[f].key] == f
  }

  /** No later fetch was started for the same key. */
  ghost predicate IsLatest(fetches: seq<Fetch>, f: nat) {
    f < |fetches| && forall g :: f < g < |fetches| ==> fetches[g].key != fetches[f].key
  }

  ghost predicate SlotOk(inflight: map<Key, nat>, fetches: seq<Fetch>, key: Key)
    requires key in inflight
  {
    var f := inflight[key];
    f < |fetches| && fetches[f].key == key && !fetches[f].finished
  }

  /** A fetch holds its key until its callback has run, which is after it has an outcome. */
  ghost predicate FetchOk(inflight: map<Key, nat>, fetches: seq<Fetch>, f: nat)
    requires f < |fetches|
  {
    if fetches[f].finished then fetches[f].outcome.Some? else Registered(inflight, fetches, f) && IsLatest(fetches, f)
  }

  ghost predicate RegistryOk(c: Config, s: State) {
    && |s.inflight| <= c.maxInflight
    && (forall key :: key in s.inflight ==> SlotOk(s.inflight, s.fetches, key))
    && (forall f :: 0 <= f < |s.fetches| ==> FetchOk(s.inflight, s.fetches, f))
    && (forall i :: 0 <= i < |s.calls| && s.calls[i].Waiting? ==> s.calls[i].fetch < |s.fetches|)
  }

  /** At most one fetch per key is under way, and no more fetches than the bound allows. */
  lemma OneFetchPerKey(c: Config, s: State, f: nat, g: nat)
    requires RegistryOk(c, s)
    requires f < |s.fetches| && g < |s.fetches| && s.fetches[f].key == s.fetches[g].key
    requires !s.fetches[f].finished && !s.fetches[g].finished
    ensures f == g
  {
    assert FetchOk(s.inflight, s.fetches, f) && FetchOk(s.inflight, s.fetches, g);
  }

  lemma InflightIsBounded(c: Config, s: State)
    requires RegistryOk(c, s)
    ensures |set f | 0 <= f < |s.fetches| && !s.fetches[f].finished| == |s.inflight| <= c.maxInflight
  {
    var unfinished := set f | 0 <= f < |s.fetches| && !s.fetches[f].finished;
    forall f | f in unfinished
      ensures f in s.inflight.Values
    {
      assert FetchOk(s.inflight, s.fetches, f);
    }
    forall key | key in s.inflight
      ensures s.inflight[key] in unfinished
    {
      assert SlotOk(s.inflight, s.fetches, key);
    }
    assert s.inflight.Values == unfinished;
    SameSize(s.inflight, unfinished);
  }

  lemma {:induction false} SameSize(m: map<Key, nat>, all: set<nat>)
    requires m.Values == all
    requires forall a, b :: a in m && b in m && m[a] == m[b] ==> a == b
    ensures |m| == |all|
    decreases |m|
  {
    if m == map[] {
      assert all == {};
    } else {
      var key :| key in m;
      var rest := m - {key};
      forall x | x in all && x != m[key]
        ensures x in rest.Values
      {
        var k :| k in m && m[k] == x;
        assert k in rest && rest[k] == x;
      }
      assert rest.Values == all - {m[key]};
      SameSize(rest, all - {m[key]});
      assert |m| == |rest| + 1 by {
        assert m.Keys == rest.Keys + {key};
      }
    }
  }

  // ---------------------------------------------------------------------------------------
  // The cache.
  // ---------------------------------------------------------------------------------------

  /** The chain is what some payload normalized to. */
  ghost predicate WasRead(c: Config, key: Key, chain: OptionChain) {
    exists payload, at :: Normalized(c.py, key.symbol, payload, key.expiration, at, c.staleAfter) == Ok(chain)
  }

  /** The chain is what some payload normalizes to at `now`, but for its time of receipt. */
  ghost predicate IsReadNow(c: Config, key: Key, chain: OptionChain, now: real) {
    exists payload, received ::
      var current := Normalized(c.py, key.symbol, payload, key.expiration, now, c.staleAfter);
      current.Ok? && chain == current.value.(receivedAt := received)
  }

  /** An entry holds the outcome of the fetch started last for its key. */
  ghost predicate FromLatestFetch(fetches: seq<Fetch>, e: ChainEntry) {
    exists f: nat :: IsLatest(fetches, f) && fetches[f].key == e.key && fetches[f].outcome == Some(Delivered(e.value.chain))
  }

  ghost predicate EntryOk(c: Config, fetches: seq<Fetch>, e: ChainEntry) {
    && e.value.expires == e.value.created + c.ttl
    && e.bytes == c.size(e.value.chain)
    && WasRead(c, e.key, e.value.chain)
    && FromLatestFetch(fetches, e)
  }

  ghost predicate EntriesOk(c: Config, fetches: seq<Fetch>, cache: seq<ChainEntry>) {
    forall e :: e in cache ==> EntryOk(c, fetches, e)
  }

  ghost predicate LogOk(c: Config, log: seq<Access<Key, CachedChain>>, cache: seq<ChainEntry>) {
    Genuine(log, c.bounds) && cache == Bounded(log, c.bounds)
  }

  /** The key of a running fetch is not in the cache. */
  ghost predicate RunningUncached(fetches: seq<Fetch>, cache: seq<ChainEntry>) {
    forall f :: 0 <= f < |fetches| && fetches[f].outcome.None? ==> !HasKey(cache, fetches[f].key)
  }

  ghost predicate Inv(c: Config, s: State) {
    && RegistryOk(c, s)
    && LogOk(c, s.log, s.cache)
    && EntriesOk(c, s.fetches, s.cache)
    && RunningUncached(s.fetches, s.cache)
  }

  // ---------------------------------------------------------------------------------------
  // Each step keeps it.
  // ---------------------------------------------------------------------------------------

  lemma LookedKeepsCache(c: Config, s: State, key: Key, now: real)
    requires LogOk(c, s.log, s.cache)
    ensures LogOk(c, Looked(s, key, now).log, Looked(s, key, now).cache)
    ensures forall e :: e in Looked(s, key, now).cache ==> e in s.cache
    ensures HasKey(Looked(s, key, now).cache, key) <==> Holds(s, key, now).Some?
  {
    hide Bounded, Genuine, Fits, Total, Stack, IsSuffix, LatestStore;
    var live := Live(now);
    var swept := Filter(s.cache, live);
    BoundedIsRecentPartOfStack(s.log, c.bounds);
    LogGrows(s.log, Swept(live), c.bounds);
    FilterKeepsDistinct(s.cache, live);
    if Holds(s, key, now).Some? {
      LogGrows(s.log + [Swept(live)], Used(key), c.bounds);
      TouchedMovesToTheEnd(swept, key);
      var e := Holds(s, key, now).value;
      var i :| 0 <= i < |swept| && swept[i] == e;
      assert e in Touched(swept, key);
    }
  }

  lemma FewerEntries(c: Config, fetches: seq<Fetch>, cache: seq<ChainEntry>, fewer: seq<ChainEntry>)
    requires forall e :: e in fewer ==> e in cache
    ensures EntriesOk(c, fetches, cache) ==> EntriesOk(c, fetches, fewer)
    ensures forall key :: HasKey(fewer, key) ==> HasKey(cache, key)
  {
    forall key | HasKey(fewer, key)
      ensures HasKey(cache, key)
    {
      var i :| 0 <= i < |fewer| && fewer[i].key == key;
      assert fewer[i] in cache;
    }
  }

  lemma LookedKeepsInv(c: Config, s: State, key: Key, now: real)
    requires Inv(c, s)
    ensures Inv(c, Looked(s, key, now))
    ensures HasKey(Looked(s, key, now).cache, key) <==> Holds(s, key, now).Some?
  {
    hide LogOk, EntryOk, HasKey, Holds;
    LookedKeepsCache(c, s, key, now);
    FewerEntries(c, s.fetches, s.cache, Looked(s, key, now).cache);
    assert Looked(s, key, now).fetches == s.fetches && Looked(s, key, now).inflight == s.inflight && Looked(s, key, now).calls == s.calls;
  }

  /** A new fetch for an uncached key leaves every entry's fetch the latest of its key. */
  lemma StartKeepsEntries(c: Config, fetches: seq<Fetch>, cache: seq<ChainEntry>, key: Key)
    requires EntriesOk(c, fetches, cache) && !HasKey(cache, key)
    ensures EntriesOk(c, fetches + [Fetch(key, None, false)], cache)
  {
    hide WasRead;
    var more := fetches + [Fetch(key, None, false)];
    forall e | e in cache
      ensures EntryOk(c, more, e)
    {
      assert EntryOk(c, fetches, e);
      var f: nat :| IsLatest(fetches, f) && fetches[f].key == e.key && fetches[f].outcome == Some(Delivered(e.value.chain));
      var i :| 0 <= i < |cache| && cache[i] == e;
      assert e.key != key;
      assert IsLatest(more, f);
    }
  }

  lemma StartKeepsRegistry(c: Config, s: State, key: Key)
    requires RegistryOk(c, s) && key !in s.inflight && |s.inflight| < c.maxInflight
    ensures RegistryOk(c, Started(s, key))
  {
    var r := Started(s, key);
    forall f | 0 <= f < |r.fetches|
      ensures FetchOk(r.inflight, r.fetches, f)
    {
      if f < |s.fetches| {
        assert FetchOk(s.inflight, s.fetches, f);
      }
    }
    forall k | k in r.inflight
      ensures SlotOk(r.inflight, r.fetches, k)
    {
      if k != key {
        assert SlotOk(s.inflight, s.fetches, k);
      }
    }
  }

  lemma StartKeepsInv(c: Config, s: State, key: Key)
    requires Inv(c, s) && key !in s.inflight && |s.inflight| < c.maxInflight && !HasKey(s.cache, key)
    ensures Inv(c, Started(s, key))
  {
    hide RegistryOk, LogOk, EntriesOk, HasKey;
    StartKeepsEntries(c, s.fetches, s.cache, key);
    StartKeepsRegistry(c, s, key);
  }

  lemma AskKeepsInv(c: Config, s: State, key: Key, now: real, at: real)
    requires Inv(c, s)
    ensures Inv(c, Asked(c, s, key, now, at))
  {
    hide Inv, Reevaluated, HasKey, Holds, Started;
    LookedKeepsInv(c, s, key, now);
    var looked := Looked(s, key, now);
    assert looked.fetches == s.fetches && looked.inflight == s.inflight && looked.calls == s.calls;
    match Decide(c, s, key, now, at)
    case Hits(chain) => CallsAreFree(c, looked, Answered(Delivered(chain)));
    case Joins(f) =>
      RegisteredExists(c, s, key);
      CallsAreFree(c, looked, Waiting(f));
    case Refuses => CallsAreFree(c, looked, Answered(Unavailable));
    case Starts(f) => StartKeepsInv(c, looked, key);
  }

  lemma RegisteredExists(c: Config, s: State, key: Key)
    requires Inv(c, s) && key in s.inflight
    ensures s.inflight[key] < |s.fetches|
  {
    assert SlotOk(s.inflight, s.fetches, key);
  }

  lemma CallsAreFree(c: Config, s: State, call: Call)
    requires Inv(c, s) && (call.Waiting? ==> call.fetch < |s.fetches|)
    ensures Inv(c, s.(calls := s.calls + [call]))
  {
    hide LogOk, EntriesOk, HasKey, IsLatest;
  }

  lemma CompletionKeepsEntries(c: Config, s: State, f: nat, outcome: Outcome)
    requires IsRunning(s, f) && EntriesOk(c, s.fetches, s.cache)
    ensures EntriesOk(c, Completed(s, f, outcome).fetches, s.cache)
  {
    hide WasRead;
    var done := Completed(s, f, outcome);
    forall e | e in s.cache
      ensures EntryOk(c, done.fetches, e)
    {
      assert EntryOk(c, s.fetches, e);
      var g: nat :| IsLatest(s.fetches, g) && s.fetches[g].key == e.key && s.fetches[g].outcome == Some(Delivered(e.value.chain));
      assert IsLatest(done.fetches, g);
    }
  }

  lemma CompletionKeepsRegistry(c: Config, s: State, f: nat, outcome: Outcome)
    requires IsRunning(s, f) && RegistryOk(c, s)
    ensures RegistryOk(c, Completed(s, f, outcome))
  {
    var r := Completed(s, f, outcome);
    forall g | 0 <= g < |r.fetches|
      ensures FetchOk(r.inflight, r.fetches, g)
    {
      assert FetchOk(s.inflight, s.fetches, g);
    }
    forall k | k in r.inflight
      ensures SlotOk(r.inflight, r.fetches, k)
    {
      assert SlotOk(s.inflight, s.fetches, k);
    }
  }

  lemma CompletionKeepsInv(c: Config, s: State, f: nat, outcome: Outcome)
    requires IsRunning(s, f) && Inv(c, s)
    ensures Inv(c, Completed(s, f, outcome))
  {
    hide LogOk, EntriesOk, HasKey, RegistryOk;
    CompletionKeepsEntries(c, s, f, outcome);
    CompletionKeepsRegistry(c, s, f, outcome);
  }

  /** A completing fetch never replaces an entry: its key is not there. */
  lemma StoreNeverReplaces(c: Config, s: State, f: nat)
    requires Inv(c, s) && IsRunning(s, f)
    ensures Find(s.cache, s.fetches[f].key).None?
    ensures Others(s.cache, s.fetches[f].key) == s.cache
  {
    NothingToTakeOut(s.cache, s.fetches[f].key);
  }

  /** Storing, then completing, seen as one. */
  lemma StoreKeepsInv(c: Config, s: State, f: nat, chain: OptionChain, now: real)
    requires Inv(c, s) && IsRunning(s, f) && c.size(chain) <= c.bounds.bytes
    requires WasRead(c, s.fetches[f].key, chain)
    ensures Inv(c, Completed(Kept(c, s, EntryFor(c, s.fetches[f].key, chain, now)), f, Delivered(chain)))
  {
    hide WasRead, Placed, Trimmed, Bounded, Genuine, RegistryOk;
    var e := EntryFor(c, s.fetches[f].key, chain, now);
    var stored := Kept(c, s, e);
    var done := Completed(stored, f, Delivered(chain));
    LogGrows(s.log, Stored(e), c.bounds);
    CompletionKeepsRegistry(c, s, f, Delivered(chain));
    CompletionKeepsEntries(c, s, f, Delivered(chain));
    OnlyTheNewEntryIsNew(s.cache, e, c.bounds);
    RegistryIgnoresCache(c, Completed(s, f, Delivered(chain)), stored.cache, stored.log);
    assert RegistryOk(c, done);
    StoredEntryIsLatest(c, s, f, chain, now);
    StoredUncachesNoRunner(c, s, f, chain, now);
  }

  lemma RegistryIgnoresCache(c: Config, s: State, cache: seq<ChainEntry>, log: seq<Access<Key, CachedChain>>)
    requires RegistryOk(c, s)
    ensures RegistryOk(c, s.(cache := cache, log := log))
  {
  }

  lemma StoredEntryIsLatest(c: Config, s: State, f: nat, chain: OptionChain, now: real)
    requires RegistryOk(c, s) && IsRunning(s, f) && WasRead(c, s.fetches[f].key, chain)
    ensures EntryOk(c, Completed(s, f, Delivered(chain)).fetches, EntryFor(c, s.fetches[f].key, chain, now))
  {
    hide WasRead;
    var fetches := Completed(s, f, Delivered(chain)).fetches;
    assert FetchOk(s.inflight, s.fetches, f);
    assert IsLatest(fetches, f);
  }

  lemma StoredUncachesNoRunner(c: Config, s: State, f: nat, chain: OptionChain, now: real)
    requires RegistryOk(c, s) && RunningUncached(s.fetches, s.cache) && IsRunning(s, f)
    ensures var done := Completed(Kept(c, s, EntryFor(c, s.fetches[f].key, chain, now)), f, Delivered(chain));
            RunningUncached(done.fetches, done.cache)
  {
    hide Placed, Trimmed, HasKey;
    var e := EntryFor(c, s.fetches[f].key, chain, now);
    var done := Completed(Kept(c, s, e), f, Delivered(chain));
    forall g | 0 <= g < |done.fetches| && done.fetches[g].outcome.None?
      ensures !HasKey(done.cache, done.fetches[g].key)
    {
      OneFetchPerKeyRunning(c, s, f, g);
      OnlyTheNewKeyIsNew(s.cache, e, c.bounds, s.fetches[g].key);
    }
  }

  lemma OneFetchPerKeyRunning(c: Config, s: State, f: nat, g: nat)
    requires RegistryOk(c, s) && IsRunning(s, f) && IsRunning(s, g) && f != g
    ensures s.fetches[f].key != s.fetches[g].key
  {
    assert FetchOk(s.inflight, s.fetches, f) && FetchOk(s.inflight, s.fetches, g);
  }

  lemma ResponseKeepsInv(c: Config, s: State, f: nat, payload: Json, at: real, now: real)
    requires Inv(c, s) && IsRunning(s, f)
    ensures Inv(c, Responded(c, s, f, payload, at, now))
  {
    hide Normalized, Inv, Kept, Completed, EntryFor;
    var key := s.fetches[f].key;
    match Normalized(c.py, key.symbol, payload, key.expiration, at, c.staleAfter)
    case Raises => CompletionKeepsInv(c, s, f, Malformed);
    case Ok(chain) =>
      assert WasRead(c, key, chain);
      if c.size(chain) <= c.bounds.bytes {
        StoreKeepsInv(c, s, f, chain, now);
      } else {
        CompletionKeepsInv(c, s, f, Delivered(chain));
      }
  }

  lemma FinishKeepsRegistry(c: Config, s: State, f: nat)
    requires RegistryOk(c, s) && Enabled(s, Finish(f))
    ensures RegistryOk(c, Finished(s, f))
    ensures Registered(s.inflight, s.fetches, f)
    ensures Finished(s, f).inflight == s.inflight - {s.fetches[f].key}
  {
    assert FetchOk(s.inflight, s.fetches, f);
    var r := Finished(s, f);
    forall g | 0 <= g < |r.fetches|
      ensures FetchOk(r.inflight, r.fetches, g)
    {
      assert FetchOk(s.inflight, s.fetches, g);
    }
    forall k | k in r.inflight
      ensures SlotOk(r.inflight, r.fetches, k)
    {
      assert SlotOk(s.inflight, s.fetches, k);
    }
  }

  lemma FinishKeepsEntries(c: Config, s: State, f: nat)
    requires EntriesOk(c, s.fetches, s.cache) && f < |s.fetches|
    ensures EntriesOk(c, Finished(s, f).fetches, s.cache)
  {
    hide WasRead;
    var done := Finished(s, f);
    forall e | e in s.cache
      ensures EntryOk(c, done.fetches, e)
    {
      assert EntryOk(c, s.fetches, e);
      var g: nat :| IsLatest(s.fetches, g) && s.fetches[g].key == e.key && s.fetches[g].outcome == Some(Delivered(e.value.chain));
      assert IsLatest(done.fetches, g);
    }
  }

  lemma FinishKeepsInv(c: Config, s: State, f: nat)
    requires Inv(c, s) && Enabled(s, Finish(f))
    ensures Inv(c, Finished(s, f))
  {
    FinishKeepsRegistry(c, s, f);
    hide RegistryOk, LogOk, EntriesOk, HasKey;
    FinishKeepsEntries(c, s, f);
  }

  lemma CallChangeKeepsInv(c: Config, s: State, i: nat, call: Call)
    requires Inv(c, s) && i < |s.calls| && !call.Waiting?
    ensures Inv(c, s.(calls := s.calls[i := call]))
  {
    hide LogOk, EntriesOk, HasKey, IsLatest;
  }

  lemma LookUpKeepsInv(c: Config, s: State, key: Key, now: real, at: real)
    requires Inv(c, s)
    ensures Inv(c, LookedUp(c, s, key, now, at))
  {
    hide Inv, Reevaluated, Holds;
    LookedKeepsInv(c, s, key, now);
    var looked := Looked(s, key, now);
    if Holds(s, key, now).Some? {
      CallsAreFree(c, looked, Answered(Delivered(Reevaluated(Holds(s, key, now).value.value.chain, at, c.staleAfter))));
    }
  }

  lemma StepKeepsInv(c: Config, s: State, step: Step)
    requires Inv(c, s) && Enabled(s, step)
    ensures Inv(c, Apply(c, s, step))
  {
    hide Asked, LookedUp, Responded, Completed, Finished, LogOk, EntriesOk, RunningUncached;
    match step
    case Ask(key, now, at) => AskKeepsInv(c, s, key, now, at);
    case LookUp(key, now, at) => LookUpKeepsInv(c, s, key, now, at);
    case Join(key) =>
      if key in s.inflight { CallsAreFree(c, s, Waiting(s.inflight[key])); }
    case Respond(f, payload, at, now) => ResponseKeepsInv(c, s, f, payload, at, now);
    case Fail(f) => CompletionKeepsInv(c, s, f, Unavailable);
    case Kill(f) => CompletionKeepsInv(c, s, f, Cancelled);
    case Finish(f) => FinishKeepsInv(c, s, f);
    case Wake(i) => CallChangeKeepsInv(c, s, i, Answered(s.fetches[s.calls[i].fetch].outcome.value));
    case Withdraw(i) => CallChangeKeepsInv(c, s, i, Withdrawn);
  }

  lemma {:induction false} RunKeepsInv(c: Config, steps: seq<Step>)
    requires ValidConfig(c) && CanRun(c, steps)
    ensures Inv(c, Run(c, steps))
  {
    if steps != [] {
      hide Apply, Inv;
      RunKeepsInv(c, steps[..|steps| - 1]);
      StepKeepsInv(c, Run(c, steps[..|steps| - 1]), steps[|steps| - 1]);
    }
  }

  // ---------------------------------------------------------------------------------------
  // Hits.
  // ---------------------------------------------------------------------------------------

  lemma ReevaluatedReadIsReadNow(c: Config, key: Key, chain: OptionChain, now: real)
    requires WasRead(c, key, chain)
    ensures IsReadNow(c, key, Reevaluated(chain, now, c.staleAfter), now)
  {
    hide Normalized, Reevaluated;
    var payload, at :| Normalized(c.py, key.symbol, payload, key.expiration, at, c.staleAfter) == Ok(chain);
    HitEqualsFreshWork(c.py, key.symbol, payload, key.expiration, at, now, c.staleAfter);
    assert Normalized(c.py, key.symbol, payload, key.expiration, now, c.staleAfter).Ok?;
  }

  /** In every run, a hit is younger than the time to live, is the latest chain stored under
      exactly that key and the outcome of the fetch started last for it, and equals what
      normalizing that payload now would give, but for its time of receipt. */
  lemma HitIsRecentLatestAndFresh(c: Config, steps: seq<Step>, key: Key, now: real, at: real)
    requires ValidConfig(c) && CanRun(c, steps)
    ensures var s := Run(c, steps);
            var hit := Holds(s, key, now);
            hit.Some? ==>
              && hit.value.key == key
              && now - hit.value.value.created < c.ttl
              && LatestStore(s.log, key) == hit
              && FromLatestFetch(s.fetches, hit.value)
              && Decide(c, s, key, now, at) == Hits(Reevaluated(hit.value.value.chain, at, c.staleAfter))
              && IsReadNow(c, key, Reevaluated(hit.value.value.chain, at, c.staleAfter), at)
  {
    hide Run, CanRun, Reevaluated, FromLatestFetch, IsReadNow, WasRead, Bounded, Genuine, LatestStore, RegistryOk, RunningUncached;
    RunKeepsInv(c, steps);
    var s := Run(c, steps);
    var hit := Holds(s, key, now);
    if hit.Some? {
      BoundedIsRecentPartOfStack(s.log, c.bounds);
      assert hit.value in s.cache && EntryOk(c, s.fetches, hit.value);
      ReevaluatedReadIsReadNow(c, key, hit.value.value.chain, at);
    }
  }

  /** In every run the cache is a run of the most recently used entries of the unbounded one,
      within both bounds. */
  lemma CacheRefinesRecencyLog(c: Config, steps: seq<Step>)
    requires ValidConfig(c) && CanRun(c, steps)
    ensures var s := Run(c, steps);
            && s.cache == Bounded(s.log, c.bounds)
            && IsSuffix(s.cache, Stack(s.log))
            && Fits(s.cache, c.bounds) && Distinct(s.cache)
  {
    hide Run, CanRun, Bounded, Genuine;
    RunKeepsInv(c, steps);
    BoundedIsRecentPartOfStack(Run(c, steps).log, c.bounds);
  }

  // ---------------------------------------------------------------------------------------
  // Callers.
  // ---------------------------------------------------------------------------------------

  /** Outcomes are final, and a call leaves its fetch only with that fetch's outcome or by
      being withdrawn. */
  ghost predicate CallLater(before: State, after: State, i: nat)
    requires i < |before.calls| && i < |after.calls|
  {
    match before.calls[i]
    case Waiting(f) =>
      match after.calls[i] {
        case Waiting(g) => g == f
        case Answered(outcome) => f < |after.fetches| && after.fetches[f].outcome == Some(outcome)
        case Withdrawn => true
      }
    case _ => after.calls[i] == before.calls[i]
  }

  ghost predicate FetchLater(before: Fetch, after: Fetch) {
    && after.key == before.key
    && (before.outcome.Some? ==> after.outcome == before.outcome)
    && (before.finished ==> after.finished)
  }

  ghost predicate Later(before: State, after: State) {
    && |before.fetches| <= |after.fetches| && |before.calls| <= |after.calls|
    && (forall f :: 0 <= f < |before.fetches| ==> FetchLater(before.fetches[f], after.fetches[f]))
    && (forall i :: 0 <= i < |before.calls| ==> CallLater(before, after, i))
  }

  lemma AskIsLater(c: Config, s: State, key: Key, now: real, at: real)
    ensures Later(s, Asked(c, s, key, now, at))
  {
    hide Reevaluated, Looked, Holds;
    LookedFrame(s, key, now);
  }

  lemma LookedFrame(s: State, key: Key, now: real)
    ensures var r := Looked(s, key, now);
            r.fetches == s.fetches && r.inflight == s.inflight && r.calls == s.calls
  {
    hide Touched, Filter, Holds;
  }

  lemma StepIsLater(c: Config, s: State, step: Step)
    requires Enabled(s, step)
    ensures Later(s, Apply(c, s, step))
  {
    hide Reevaluated, Normalized, Touched, Trimmed, Placed, Filter, Find, Asked, Looked, Holds;
    match step
    case Ask(key, now, at) => AskIsLater(c, s, key, now, at);
    case LookUp(key, now, at) => LookedFrame(s, key, now);
    case _ =>
  }

  lemma LaterTrans(a: State, b: State, d: State)
    requires Later(a, b) && Later(b, d)
    ensures Later(a, d)
  {
    forall i | 0 <= i < |a.calls|
      ensures CallLater(a, d, i)
    {
      assert CallLater(a, b, i) && CallLater(b, d, i);
      if a.calls[i].Waiting? && b.calls[i].Answered? {
        assert FetchLater(b.fetches[a.calls[i].fetch], d.fetches[a.calls[i].fetch]);
      }
    }
    forall f | 0 <= f < |a.fetches|
      ensures FetchLater(a.fetches[f], d.fetches[f])
    {
      assert FetchLater(a.fetches[f], b.fetches[f]) && FetchLater(b.fetches[f], d.fetches[f]);
    }
  }

  lemma {:induction false} RunIsLater(c: Config, steps: seq<Step>, k: nat)
    requires CanRun(c, steps) && k <= |steps|
    ensures CanRun(c, steps[..k]) && Later(Run(c, steps[..k]), Run(c, steps))
    decreases |steps|
  {
    if k == |steps| {
      assert steps[..k] == steps;
    } else {
      hide Later, Apply;
      var n := |steps| - 1;
      assert steps[..n][..k] == steps[..k];
      RunIsLater(c, steps[..n], k);
      StepIsLater(c, Run(c, steps[..n]), steps[n]);
      LaterTrans(Run(c, steps[..k]), Run(c, steps[..n]), Run(c, steps));
    }
  }

  /** Whoever waited on a fetch at any point of a run, its owner included, is answered with
      that fetch's own outcome, so all of them get the same. */
  lemma JoinersGetTheFetchOutcome(c: Config, steps: seq<Step>, k: nat, i: nat)
    requires ValidConfig(c) && CanRun(c, steps) && k <= |steps|
    ensures CanRun(c, steps[..k])
    ensures var earlier, s := Run(c, steps[..k]), Run(c, steps);
            i < |earlier.calls| && earlier.calls[i].Waiting? ==>
              var f := earlier.calls[i].fetch;
              && i < |s.calls| && f < |s.fetches|
              && (s.calls[i].Answered? ==> s.fetches[f].outcome == Some(s.calls[i].outcome))
              && (s.calls[i].Waiting? ==> s.calls[i].fetch == f)
  {
    hide Run, CanRun, LogOk, EntriesOk, RunningUncached;
    RunIsLater(c, steps, k);
    RunKeepsInv(c, steps[..k]);
    var before := Run(c, steps[..k]);
    if i < |before.calls| && before.calls[i].Waiting? {
      assert CallLater(before, Run(c, steps), i);
    }
  }

  function Uncancelled(steps: seq<Step>): seq<Step> {
    if steps == [] then []
    else Uncancelled(steps[..|steps| - 1]) + if steps[|steps| - 1].Withdraw? then [] else [steps[|steps| - 1]]
  }

  /** The same but for callers that gave up in one and are still waiting in the other. */
  ghost predicate SameButForWaiting(s: State, r: State) {
    && s.fetches == r.fetches && s.inflight == r.inflight && s.cache == r.cache && s.log == r.log
    && |s.calls| == |r.calls|
    && forall i :: 0 <= i < |s.calls| ==> s.calls[i] == r.calls[i] || (s.calls[i].Withdrawn? && r.calls[i].Waiting?)
  }

  lemma LookedAlike(s: State, r: State, key: Key, now: real)
    requires s.cache == r.cache && s.log == r.log
    ensures Holds(s, key, now) == Holds(r, key, now)
    ensures Looked(s, key, now).cache == Looked(r, key, now).cache && Looked(s, key, now).log == Looked(r, key, now).log
  {
    hide Touched, Filter, Find;
  }

  lemma AskKeepsSame(c: Config, s: State, r: State, key: Key, now: real, at: real)
    requires SameButForWaiting(s, r)
    ensures SameButForWaiting(Asked(c, s, key, now, at), Asked(c, r, key, now, at))
    ensures SameButForWaiting(LookedUp(c, s, key, now, at), LookedUp(c, r, key, now, at))
  {
    hide Reevaluated, Looked, Holds;
    LookedAlike(s, r, key, now);
    LookedFrame(s, key, now);
    LookedFrame(r, key, now);
  }

  lemma StepKeepsSame(c: Config, s: State, r: State, step: Step)
    requires SameButForWaiting(s, r) && Enabled(s, step)
    ensures if step.Withdraw? then SameButForWaiting(Apply(c, s, step), r)
            else Enabled(r, step) && SameButForWaiting(Apply(c, s, step), Apply(c, r, step))
  {
    hide Reevaluated, Normalized, Touched, Trimmed, Placed, Filter, Find, Asked, LookedUp;
    match step
    case Ask(key, now, at) => AskKeepsSame(c, s, r, key, now, at);
    case LookUp(key, now, at) => AskKeepsSame(c, s, r, key, now, at);
    case _ =>
  }

  /** No cancellation of any caller ever matters to the rest: a run with its cancellations
      taken out still is a run, and ends with the same fetches, registry and cache, and the
      same answers for every caller that did not give up. */
  lemma {:induction false} CancellationsAreInvisible(c: Config, steps: seq<Step>)
    requires CanRun(c, steps)
    ensures CanRun(c, Uncancelled(steps)) && SameButForWaiting(Run(c, steps), Run(c, Uncancelled(steps)))
  {
    if steps != [] {
      hide Apply, Enabled, SameButForWaiting;
      var n := |steps| - 1;
      CancellationsAreInvisible(c, steps[..n]);
      StepKeepsSame(c, Run(c, steps[..n]), Run(c, Uncancelled(steps[..n])), steps[n]);
      if !steps[n].Withdraw? {
        assert Uncancelled(steps)[..|Uncancelled(steps)| - 1] == Uncancelled(steps[..n]);
      } else {
        assert Uncancelled(steps) == Uncancelled(steps[..n]);
      }
    } else {
      assert SameButForWaiting(Run(c, steps), Run(c, Uncancelled(steps)));
    }
  }

  function Finishes(steps: seq<Step>, f: nat): nat {
    if steps == [] then 0
    else Finishes(steps[..|steps| - 1], f) + if steps[|steps| - 1] == Finish(f) then 1 else 0
  }

  /** The completion callback of a fetch runs at most once, and when it does the registry entry
      under its key is its own; after it the key is free. */
  lemma {:induction false} EntryRemovedExactlyOnce(c: Config, steps: seq<Step>, f: nat)
    requires ValidConfig(c) && CanRun(c, steps)
    ensures var s := Run(c, steps);
            && Finishes(steps, f) <= 1
            && (f < |s.fetches| ==> (Finishes(steps, f) == 1 <==> s.fetches[f].finished))
            && (f >= |s.fetches| ==> Finishes(steps, f) == 0)
            && (Enabled(s, Finish(f)) ==>
                  && Registered(s.inflight, s.fetches, f)
                  && Apply(c, s, Finish(f)).inflight == s.inflight - {s.fetches[f].key})
  {
    RunKeepsInv(c, steps);
    if Enabled(Run(c, steps), Finish(f)) {
      FinishKeepsRegistry(c, Run(c, steps), f);
    }
    if steps != [] {
      var n := |steps| - 1;
      EntryRemovedExactlyOnce(c, steps[..n], f);
      OnlyFinishFinishes(c, Run(c, steps[..n]), steps[n], f);
      hide Inv, Apply, Enabled;
    }
  }

  lemma OnlyFinishFinishes(c: Config, s: State, step: Step, f: nat)
    requires Enabled(s, step)
    ensures var r := Apply(c, s, step);
            && |s.fetches| <= |r.fetches|
            && (f < |s.fetches| ==> (r.fetches[f].finished <==> s.fetches[f].finished || step == Finish(f)))
            && (|s.fetches| <= f < |r.fetches| ==> !r.fetches[f].finished)
            && (step == Finish(f) ==> f < |s.fetches| && !s.fetches[f].finished)
  {
    hide Reevaluated, Normalized, Touched, Trimmed, Placed, Filter, Find;
  }

  /** In every run there is at most one unfinished fetch per key, no more of them than the
      bound allows, and a running fetch's key is not cached, so that storing its result never
      replaces an entry. */
  lemma FetchesAreCoalesced(c: Config, steps: seq<Step>)
    requires ValidConfig(c) && CanRun(c, steps)
    ensures var s := Run(c, steps);
            && (forall f, g ::
                  0 <= f < |s.fetches| && 0 <= g < |s.fetches| && !s.fetches[f].finished && !s.fetches[g].finished
                  && s.fetches[f].key == s.fetches[g].key
                  ==> f == g)
            && |set f | 0 <= f < |s.fetches| && !s.fetches[f].finished| == |s.inflight| <= c.maxInflight
            && (forall f :: 0 <= f < |s.fetches| && s.fetches[f].outcome.None? ==>
                  !s.fetches[f].finished && Find(s.cache, s.fetches[f].key).None?)
  {
    hide Run, CanRun, LogOk, EntriesOk;
    RunKeepsInv(c, steps);
    var s := Run(c, steps);
    InflightIsBounded(c, s);
    forall f, g | 0 <= f < |s.fetches| && 0 <= g < |s.fetches|
        && !s.fetches[f].finished && !s.fetches[g].finished && s.fetches[f].key == s.fetches[g].key
      ensures f == g
    {
      OneFetchPerKey(c, s, f, g);
    }
    forall f | 0 <= f < |s.fetches| && s.fetches[f].outcome.None?
      ensures !s.fetches[f].finished
    {
      assert FetchOk(s.inflight, s.fetches, f);
    }
  }
}
