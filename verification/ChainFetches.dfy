/** The option-chain upstream between its awaits: cache, fetches in flight and the callers
    waiting on them. */
module ChainFetches {
  import opened Common
  import opened Payloads
  import opened OptionChains
  import opened OptionChainLaws
  import opened RecencyCaches

  datatype Key = Key(symbol: string, expiration: string)

  datatype CachedChain = CachedChain(created: real, expires: real, chain: OptionChain)

  type ChainEntry = Entry<Key, CachedChain>

  /** `Cancelled` is a fetch whose own task was cancelled. */
  datatype Outcome = Delivered(chain: OptionChain) | Unavailable | Malformed | Cancelled

  /** `finished` once the completion callback has run. */
  datatype Fetch = Fetch(key: Key, outcome: Option<Outcome>, finished: bool)

  datatype Call = Waiting(fetch: nat) | Answered(outcome: Outcome) | Withdrawn

  datatype Config = Config(
    py: Python,
    size: OptionChain -> nat,
    ttl: real,
    staleAfter: real,
    bounds: Bounds,
    maxInflight: nat
  )

  predicate ValidConfig(c: Config) {
    && 0.0 < c.ttl <= 8.0
    && 1 <= c.bounds.entries <= 16
    && 1 <= c.bounds.bytes <= 64 * 1024 * 1024
    && 1 <= c.maxInflight <= 16
  }

  /** Fetches and calls are numbered in order of creation. */
  datatype State = State(
    cache: seq<ChainEntry>,
    inflight: map<Key, nat>,
    fetches: seq<Fetch>,
    calls: seq<Call>,
    log: seq<Access<Key, CachedChain>>
  )

  const EMPTY := State([], map[], [], [], [])

  function Live(now: real): ChainEntry -> bool {
    (e: ChainEntry) => e.value.expires > now
  }

  /** What the cache holds for the key once expired entries are gone. */
  function Holds(s: State, key: Key, now: real): Option<ChainEntry> {
    Find(Filter(s.cache, Live(now)), key)
  }

  /** Looking a key up prunes what has expired and marks a hit as just used. */
  function Looked(s: State, key: Key, now: real): State {
    var swept := Filter(s.cache, Live(now));
    if Holds(s, key, now).None?
    then s.(cache := swept, log := s.log + [Swept(Live(now))])
    else s.(cache := Touched(swept, key), log := s.log + [Swept(Live(now))] + [Used(key)])
  }

  datatype Decision = Hits(chain: OptionChain) | Joins(fetch: nat) | Refuses | Starts(fetch: nat)

  function Decide(c: Config, s: State, key: Key, now: real, at: real): Decision {
    match Holds(s, key, now)
    case Some(e) => Hits(Reevaluated(e.value.chain, at, c.staleAfter))
    case None =>
      if key in s.inflight then Joins(s.inflight[key])
      else if |s.inflight| >= c.maxInflight then Refuses
      else Starts(|s.fetches|)
  }

  function Asked(c: Config, s: State, key: Key, now: real, at: real): State {
    var looked := Looked(s, key, now);
    match Decide(c, s, key, now, at)
    case Hits(chain) => looked.(calls := s.calls + [Answered(Delivered(chain))])
    case Joins(f) => looked.(calls := s.calls + [Waiting(f)])
    case Refuses => looked.(calls := s.calls + [Answered(Unavailable)])
    case Starts(_) => Started(looked, key)
  }

  /** A new fetch, registered under its key, and its owner waiting on it. */
  function Started(s: State, key: Key): State {
    s.(fetches := s.fetches + [Fetch(key, None, false)],
       inflight := s.inflight[key := |s.fetches|],
       calls := s.calls + [Waiting(|s.fetches|)])
  }

  /** The lookup the API makes before it queues a request. */
  function LookedUp(c: Config, s: State, key: Key, now: real, at: real): State {
    var looked := Looked(s, key, now);
    match Holds(s, key, now)
    case None => looked
    case Some(e) => looked.(calls := s.calls + [Answered(Delivered(Reevaluated(e.value.chain, at, c.staleAfter)))])
  }

  function JoinedInflight(s: State, key: Key): State {
    if key in s.inflight then s.(calls := s.calls + [Waiting(s.inflight[key])]) else s
  }

  predicate IsRunning(s: State, f: nat) {
    f < |s.fetches| && s.fetches[f].outcome.None?
  }

  function Completed(s: State, f: nat, outcome: Outcome): State
    requires IsRunning(s, f)
  {
    s.(fetches := s.fetches[f := s.fetches[f].(outcome := Some(outcome))])
  }

  function Kept(c: Config, s: State, e: ChainEntry): State {
    s.(cache := Trimmed(Placed(s.cache, e), c.bounds), log := s.log + [Stored(e)])
  }

  function EntryFor(c: Config, key: Key, chain: OptionChain, now: real): ChainEntry {
    Entry(key, CachedChain(now, now + c.ttl, chain), c.size(chain))
  }

  /** The provider's payload arrived: one uninterrupted section normalizes, stores and completes. */
  function Responded(c: Config, s: State, f: nat, payload: Json, at: real, now: real): State
    requires IsRunning(s, f)
  {
    var key := s.fetches[f].key;
    match Normalized(c.py, key.symbol, payload, key.expiration, at, c.staleAfter)
    case Raises => Completed(s, f, Malformed)
    case Ok(chain) =>
      Completed(if c.size(chain) <= c.bounds.bytes then Kept(c, s, EntryFor(c, key, chain, now)) else s, f, Delivered(chain))
  }

  /** The completion callback gives up the key only if it still is this fetch's. */
  function Finished(s: State, f: nat): State
    requires f < |s.fetches|
  {
    var key := s.fetches[f].key;
    var done := s.(fetches := s.fetches[f := s.fetches[f].(finished := true)]);
    if key in s.inflight && s.inflight[key] == f then done.(inflight := s.inflight - {key}) else done
  }

  datatype Step =
    | Ask(key: Key, now: real, at: real)
    | LookUp(key: Key, now: real, at: real)
    | Join(key: Key)
    | Respond(fetch: nat, payload: Json, at: real, now: real)
    | Fail(fetch: nat)
    | Kill(fetch: nat)
    | Finish(fetch: nat)
    | Wake(call: nat)
    | Withdraw(call: nat)

  predicate Enabled(s: State, step: Step) {
    match step
    case Ask(_, _, _) => true
    case LookUp(_, _, _) => true
    case Join(_) => true
    case Respond(f, _, _, _) => IsRunning(s, f)
    case Fail(f) => IsRunning(s, f)
    case Kill(f) => IsRunning(s, f)
    case Finish(f) => f < |s.fetches| && s.fetches[f].outcome.Some? && !s.fetches[f].finished
    case Wake(i) => i < |s.calls| && s.calls[i].Waiting? && s.calls[i].fetch < |s.fetches| && s.fetches[s.calls[i].fetch].outcome.Some?
    case Withdraw(i) => i < |s.calls| && s.calls[i].Waiting?
  }

  function Apply(c: Config, s: State, step: Step): State
    requires Enabled(s, step)
  {
    match step
    case Ask(key, now, at) => Asked(c, s, key, now, at)
    case LookUp(key, now, at) => LookedUp(c, s, key, now, at)
    case Join(key) => JoinedInflight(s, key)
    case Respond(f, payload, at, now) => Responded(c, s, f, payload, at, now)
    case Fail(f) => Completed(s, f, Unavailable)
    case Kill(f) => Completed(s, f, Cancelled)
    case Finish(f) => Finished(s, f)
    case Wake(i) => s.(calls := s.calls[i := Answered(s.fetches[s.calls[i].fetch].outcome.value)])
    case Withdraw(i) => s.(calls := s.calls[i := Withdrawn])
  }

  ghost predicate CanRun(c: Config, steps: seq<Step>)
    decreases |steps|, 0
  {
    steps == [] ||
    (CanRun(c, steps[..|steps| - 1]) && Enabled(Run(c, steps[..|steps| - 1]), steps[|steps| - 1]))
  }

  ghost function Run(c: Config, steps: seq<Step>): State
    requires CanRun(c, steps)
    decreases |steps|, 1
  {
    if steps == [] then EMPTY else Apply(c, Run(c, steps[..|steps| - 1]), steps[|steps| - 1])
  }
}
