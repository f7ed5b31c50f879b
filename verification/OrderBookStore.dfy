/** Bounded recent depth and bounded fan-out, against the unbounded log of publishes. */
module OrderBookStores {
  import opened Common

  datatype Venue = Nasdaq | Nyse

  datatype FeedState = Unconfigured | Connecting | Connected | Disconnected

  datatype Verdict = FeedDown(state: FeedState) | SnapshotMissing | SnapshotStale | SnapshotFresh

  datatype Health = Health(healthy: bool, age: Option<real>, why: Verdict)

  datatype Snapshot = Snapshot(symbol: string, venue: Venue, depth: int)

  function LastOf<T>(s: seq<T>, n: nat): (r: seq<T>)
    ensures |r| == if |s| < n then |s| else n
    ensures forall k :: 0 <= k < |r| ==> r[k] == s[|s| - |r| + k]
  {
    if |s| <= n then s else s[|s| - n..]
  }

  /** Appending to a buffer of at most `limit` items drops the oldest when it is full. */
  function Push<T>(q: seq<T>, limit: nat, x: T): seq<T>
    requires limit >= 1
  {
    if |q| >= limit then q[1..] + [x] else q + [x]
  }

  predicate HasKey(x: Snapshot, symbol: string, venue: Venue) {
    x.symbol == symbol && x.venue == venue
  }

  function OfKey(log: seq<Snapshot>, symbol: string, venue: Venue): seq<Snapshot> {
    if log == [] then []
    else OfKey(log[..|log| - 1], symbol, venue)
         + if HasKey(log[|log| - 1], symbol, venue) then [log[|log| - 1]] else []
  }

  /** When a key was published last, `times` saying when each entry of the log was. */
  function LastAt(log: seq<Snapshot>, times: seq<real>, symbol: string, venue: Venue): Option<real>
    requires |times| == |log|
  {
    if log == [] then None
    else if HasKey(log[|log| - 1], symbol, venue) then Some(times[|log| - 1])
    else LastAt(log[..|log| - 1], times[..|log| - 1], symbol, venue)
  }

  lemma LastAtNext(log: seq<Snapshot>, times: seq<real>, x: Snapshot, now: real, symbol: string, venue: Venue)
    requires |times| == |log|
    ensures LastAt(log + [x], times + [now], symbol, venue)
         == if HasKey(x, symbol, venue) then Some(now) else LastAt(log, times, symbol, venue)
  {
    assert (log + [x])[..|log|] == log && (times + [now])[..|log|] == times;
  }

  /** The publishes a subscriber of these symbols on this venue asked for. */
  function Matching(log: seq<Snapshot>, symbols: set<string>, venue: Venue): seq<Snapshot> {
    if log == [] then []
    else
      var last := log[|log| - 1];
      Matching(log[..|log| - 1], symbols, venue) + if last.venue == venue && last.symbol in symbols then [last] else []
  }

  lemma PushIsLast<T>(s: seq<T>, limit: nat, x: T)
    requires limit >= 1
    ensures Push(LastOf(s, limit), limit, x) == LastOf(s + [x], limit)
  {
  }

  // ---------------------------------------------------------------------------------------
  // One subscriber's queue.
  // ---------------------------------------------------------------------------------------

  datatype Happening<T> = Arrives(x: T) | Takes

  datatype Fanout<T> = Fanout(queue: seq<T>, taken: nat, dropped: nat)

  function React<T>(f: Fanout<T>, limit: nat, e: Happening<T>): Fanout<T>
    requires limit >= 1
  {
    match e
    case Arrives(x) => Fanout(Push(f.queue, limit, x), f.taken, f.dropped + if |f.queue| >= limit then 1 else 0)
    case Takes => if f.queue == [] then f else Fanout(f.queue[1..], f.taken + 1, f.dropped)
  }

  function ReactAll<T>(limit: nat, es: seq<Happening<T>>): Fanout<T>
    requires limit >= 1
  {
    if es == [] then Fanout([], 0, 0) else React(ReactAll(limit, es[..|es| - 1]), limit, es[|es| - 1])
  }

  function Arrivals<T>(es: seq<Happening<T>>): seq<T> {
    if es == [] then []
    else Arrivals(es[..|es| - 1]) + if es[|es| - 1].Arrives? then [es[|es| - 1].x] else []
  }

  /** Conservation: arrivals are consumed, dropped or still queued; the queue is bounded and
      holds the newest of them, in order; a drop only ever happens on a full queue. */
  lemma {:induction false} FanoutConserves<T>(limit: nat, es: seq<Happening<T>>)
    requires limit >= 1
    ensures var f := ReactAll(limit, es);
            && |Arrivals(es)| == f.taken + f.dropped + |f.queue|
            && f.queue == Arrivals(es)[f.taken + f.dropped..]
            && |f.queue| <= limit
            && (|Arrivals(es)| <= limit ==> f.dropped == 0)
  {
    if es != [] {
      FanoutConserves(limit, es[..|es| - 1]);
    }
  }

  lemma OneMoreArrival<T>(es: seq<Happening<T>>, e: Happening<T>)
    ensures Arrivals(es + [e]) == Arrivals(es) + if e.Arrives? then [e.x] else []
  {
    assert (es + [e])[..|es|] == es;
  }

  lemma OneMoreMatching(log: seq<Snapshot>, joined: nat, x: Snapshot, symbols: set<string>, venue: Venue)
    requires joined <= |log|
    ensures Matching((log + [x])[joined..], symbols, venue)
         == Matching(log[joined..], symbols, venue) + if x.venue == venue && x.symbol in symbols then [x] else []
  {
    var more := (log + [x])[joined..];
    assert more[..|more| - 1] == log[joined..] && more[|more| - 1] == x;
  }

  class Subscription {
    // How many snapshots had been published when it was made.
    ghost const joined: nat
    const symbols: set<string>
    const venue: Venue
    const limit: nat
    var queue: seq<Snapshot>
    ghost var history: seq<Happening<Snapshot>>
    ghost var drops: nat

    ghost predicate Valid()
      reads this
    {
      && limit >= 1
      && var f := ReactAll(limit, history);
         queue == f.queue && drops == f.dropped
    }

    predicate Matches(x: Snapshot) {
      x.venue == venue && x.symbol in symbols
    }

    constructor (symbols: set<string>, venue: Venue, limit: nat, ghost joined: nat)
      requires limit >= 1
      ensures Valid() && history == [] && queue == [] && drops == 0
      ensures this.symbols == symbols && this.venue == venue && this.limit == limit && this.joined == joined
    {
      this.symbols, this.venue, this.limit, this.joined := symbols, venue, limit, joined;
      queue, history, drops := [], [], 0;
    }

    /** Room is made by dropping the oldest item. */
    method Offer(x: Snapshot) returns (dropped: bool)
      requires Valid()
      modifies this
      ensures Valid() && history == old(history) + [Arrives(x)]
      ensures queue == Push(old(queue), limit, x)
      ensures dropped <==> |old(queue)| >= limit
      ensures drops == old(drops) + if dropped then 1 else 0
    {
      dropped := |queue| >= limit;
      if dropped {
        queue := queue[1..];
        drops := drops + 1;
      }
      queue := queue + [x];
      history := history + [Arrives(x)];
      assert history[..|history| - 1] == old(history);
    }

    method Take() returns (x: Snapshot)
      requires Valid() && queue != []
      modifies this
      ensures Valid() && history == old(history) + [Takes]
      ensures x == old(queue)[0] && queue == old(queue)[1..] && drops == old(drops)
    {
      x := queue[0];
      queue := queue[1..];
      history := history + [Takes];
      assert history[..|history| - 1] == old(history);
    }
  }

  class OrderBookStore {
    const historyLimit: nat
    const subscriberLimit: nat
    var history: map<(string, Venue), seq<Snapshot>>
    var subscriptions: set<Subscription>
    var subscriberDropCount: nat
    var feedStates: map<Venue, FeedState>
    var lastPublish: map<(string, Venue), real>
    ghost var log: seq<Snapshot>
    ghost var times: seq<real>

    function Kept(symbol: string, venue: Venue): seq<Snapshot>
      reads this`history
    {
      if (symbol, venue) in history then history[(symbol, venue)] else []
    }

    /** The store's history is the tail of the publish log, per key. */
    ghost predicate HistoryOk()
      reads this`history, this`log
    {
      && 1 <= historyLimit <= 10000 && 1 <= subscriberLimit <= 1000
      && forall symbol, venue :: Kept(symbol, venue) == LastOf(OfKey(log, symbol, venue), historyLimit)
    }

    /** Every venue has a feed state, and the last publish of each key is the log's. */
    ghost predicate FeedsOk()
      reads this`feedStates, this`lastPublish, this`log, this`times
    {
      && Nasdaq in feedStates && Nyse in feedStates
      && |times| == |log|
      && forall symbol, venue :: LastPublished(symbol, venue) == LastAt(log, times, symbol, venue)
    }

    function LastPublished(symbol: string, venue: Venue): Option<real>
      reads this`lastPublish
    {
      if (symbol, venue) in lastPublish then Some(lastPublish[(symbol, venue)]) else None
    }

    ghost predicate SubscribersOk()
      reads this`subscriptions, subscriptions
    {
      forall s :: s in subscriptions ==> Ready(s)
    }

    /** A subscriber has been offered exactly the matching part of the log since it joined. */
    ghost predicate Served(s: Subscription)
      reads this`log, s
    {
      s.joined <= |log| && Arrivals(s.history) == Matching(log[s.joined..], s.symbols, s.venue)
    }

    ghost predicate AllServed()
      reads this`subscriptions, this`log, subscriptions
    {
      forall s :: s in subscriptions ==> Served(s)
    }

    ghost predicate Valid()
      reads this, subscriptions
    {
      HistoryOk() && FeedsOk() && SubscribersOk() && AllServed()
    }

    constructor (historyLimit: nat, subscriberLimit: nat)
      requires 1 <= historyLimit <= 10000 && 1 <= subscriberLimit <= 1000
      ensures Valid() && log == [] && subscriptions == {} && subscriberDropCount == 0
    {
      this.historyLimit, this.subscriberLimit := historyLimit, subscriberLimit;
      history, subscriptions, subscriberDropCount, log, times := map[], {}, 0, [], [];
      feedStates, lastPublish := map[Nasdaq := Unconfigured, Nyse := Unconfigured], map[];
    }

    method Remember(x: Snapshot)
      requires HistoryOk()
      modifies this`history, this`log
      ensures HistoryOk() && log == old(log) + [x]
    {
      var key := (x.symbol, x.venue);
      ghost var before := history;
      assert Kept(x.symbol, x.venue) == LastOf(OfKey(log, x.symbol, x.venue), historyLimit);
      PushIsLast(OfKey(log, x.symbol, x.venue), historyLimit, x);
      history := history[key := Push(Kept(x.symbol, x.venue), historyLimit, x)];
      log := log + [x];
      assert log[..|log| - 1] == old(log);
      forall symbol, venue
        ensures Kept(symbol, venue) == LastOf(OfKey(log, symbol, venue), historyLimit)
      {
        assert old(Kept(symbol, venue)) == LastOf(OfKey(old(log), symbol, venue), historyLimit);
      }
    }

    ghost predicate Untouched(s: Subscription, queue: seq<Snapshot>, events: seq<Happening<Snapshot>>)
      reads s
    {
      s.queue == queue && s.history == events
    }

    ghost predicate Offered(s: Subscription, x: Snapshot, queue: seq<Snapshot>, events: seq<Happening<Snapshot>>)
      requires subscriberLimit >= 1
      reads s
    {
      s.queue == Push(queue, subscriberLimit, x) && s.history == events + [Arrives(x)]
    }

    ghost predicate Handled(s: Subscription, x: Snapshot, queue: seq<Snapshot>, events: seq<Happening<Snapshot>>)
      requires subscriberLimit >= 1
      reads s
    {
      if s.Matches(x) then Offered(s, x, queue, events) else Untouched(s, queue, events)
    }

    /** The subscriptions as a list, in some order. */
    method Listed(all: set<Subscription>) returns (order: seq<Subscription>)
      ensures forall s :: s in order <==> s in all
      ensures forall i, j :: 0 <= i < j < |order| ==> order[i] != order[j]
    {
      order := [];
      var rest := all;
      while rest != {}
        invariant rest <= all
        invariant forall s :: s in order <==> s in all && s !in rest
        invariant forall i, j :: 0 <= i < j < |order| ==> order[i] != order[j]
        decreases rest
      {
        var s :| s in rest;
        rest := rest - {s};
        order := order + [s];
      }
    }

    ghost predicate Ready(s: Subscription)
      reads s
    {
      s.Valid() && s.limit == subscriberLimit
    }

    method Serve(s: Subscription, x: Snapshot) returns (dropped: bool)
      requires Ready(s) && subscriberLimit >= 1
      modifies s
      ensures Ready(s) && Handled(s, x, old(s.queue), old(s.history))
      ensures dropped <==> s.Matches(x) && |old(s.queue)| >= subscriberLimit
    {
      hide Push, ReactAll, Subscription.Valid;
      if !s.Matches(x) {
        return false;
      }
      dropped := s.Offer(x);
    }

    method FanOut(order: seq<Subscription>, x: Snapshot)
      requires subscriberLimit >= 1
      requires forall k :: 0 <= k < |order| ==> Ready(order[k])
      requires forall i, j :: 0 <= i < j < |order| ==> order[i] != order[j]
      modifies this`subscriberDropCount, set s | s in order
      ensures forall k :: 0 <= k < |order| ==>
                Ready(order[k]) && Handled(order[k], x, old(order[k].queue), old(order[k].history))
      ensures subscriberDropCount == old(subscriberDropCount) + Overflows(old(Fullness(order, x)))
    {
      hide Push, ReactAll, Subscription.Valid, Ready, Handled, Untouched, Overflows;
      ghost var full := Fullness(order, x);
      NoOverflow(full);
      forall k | 0 <= k < |order|
        ensures Untouched(order[k], old(order[k].queue), old(order[k].history))
      {
        IsUntouched(order[k]);
      }
      for i := 0 to |order|
        invariant forall k :: 0 <= k < |order| ==> Ready(order[k])
        invariant forall k :: 0 <= k < i ==> Handled(order[k], x, old(order[k].queue), old(order[k].history))
        invariant forall k :: i <= k < |order| ==> Untouched(order[k], old(order[k].queue), old(order[k].history))
        invariant subscriberDropCount == old(subscriberDropCount) + Overflows(full[..i])
      {
        WasUntouched(order[i], old(order[i].queue), old(order[i].history));
        OneMoreOverflow(full, i);
        var dropped := Serve(order[i], x);
        if dropped {
          subscriberDropCount := subscriberDropCount + 1;
        }
      }
      assert full[..|order|] == full;
    }

    lemma IsUntouched(s: Subscription)
      ensures Untouched(s, s.queue, s.history)
    {
    }

    lemma WasUntouched(s: Subscription, queue: seq<Snapshot>, events: seq<Happening<Snapshot>>)
      requires Untouched(s, queue, events)
      ensures s.queue == queue && s.history == events
    {
    }

    lemma NoOverflow(full: seq<bool>)
      ensures Overflows(full[..0]) == 0
    {
    }

    lemma OneMoreOverflow(full: seq<bool>, i: nat)
      requires i < |full|
      ensures Overflows(full[..i + 1]) == Overflows(full[..i]) + if full[i] then 1 else 0
    {
      assert full[..i + 1][..i] == full[..i];
    }

    /** Which of the listed subscribers are about to lose their oldest item. */
    ghost function Fullness(order: seq<Subscription>, x: Snapshot): (r: seq<bool>)
      reads order
      ensures |r| == |order|
      ensures forall k :: 0 <= k < |order| ==> (r[k] <==> order[k].Matches(x) && |order[k].queue| >= subscriberLimit)
    {
      seq(|order|, k requires 0 <= k < |order| reads order => order[k].Matches(x) && |order[k].queue| >= subscriberLimit)
    }

    ghost function Overflows(full: seq<bool>): nat {
      if full == [] then 0 else Overflows(full[..|full| - 1]) + if full[|full| - 1] then 1 else 0
    }

    /** Counting list positions counts subscribers, none being listed twice. */
    lemma {:induction false} OverflowsCount(order: seq<Subscription>, full: seq<bool>)
      requires |order| == |full|
      requires forall i, j :: 0 <= i < j < |order| ==> order[i] != order[j]
      ensures |set k | 0 <= k < |order| && full[k] :: order[k]| == Overflows(full)
    {
      if order != [] {
        var n := |order| - 1;
        OverflowsCount(order[..n], full[..n]);
        var before := set k | 0 <= k < n && full[..n][k] :: order[..n][k];
        var after := set k | 0 <= k < |order| && full[k] :: order[k];
        assert before == set k | 0 <= k < n && full[k] :: order[k];
        assert order[n] !in before;
        assert after == if full[n] then before + {order[n]} else before;
      }
    }

    /** The subscribers whose full queue loses its oldest item when `x` is published. */
    ghost function Losing(all: set<Subscription>, x: Snapshot): set<Subscription>
      reads all
    {
      set s | s in all && s.venue == x.venue && x.symbol in s.symbols && |s.queue| >= subscriberLimit
    }

    lemma LosersAreCounted(order: seq<Subscription>, x: Snapshot)
      requires forall i, j :: 0 <= i < j < |order| ==> order[i] != order[j]
      ensures Overflows(Fullness(order, x)) == |Losing((set s | s in order), x)|
    {
      var full := Fullness(order, x);
      OverflowsCount(order, full);
      assert (set k | 0 <= k < |order| && full[k] :: order[k]) == Losing((set s | s in order), x);
    }

    /** The loop over the subscribers, whatever order they are visited in. */
    method Distribute(x: Snapshot)
      requires subscriberLimit >= 1 && SubscribersOk()
      modifies this`subscriberDropCount, subscriptions
      ensures SubscribersOk()
      ensures forall s :: s in subscriptions ==> Handled(s, x, old(s.queue), old(s.history))
      ensures subscriberDropCount == old(subscriberDropCount) + |old(Losing(subscriptions, x))|
    {
      hide Push, ReactAll, Subscription.Valid, Ready, Handled, Losing, Overflows;
      var order := Listed(subscriptions);
      assert (set s | s in order) == subscriptions;
      LosersAreCounted(order, x);
      forall k | 0 <= k < |order|
        ensures Ready(order[k])
      {
        assert order[k] in order;
      }
      FanOut(order, x);
      forall s | s in subscriptions
        ensures Ready(s) && Handled(s, x, old(s.queue), old(s.history))
      {
        var k := IndexOf(order, s);
        assert Ready(order[k]);
      }
    }

    /** The key's publish time and its venue's feed state. */
    method Stamp(x: Snapshot, now: real)
      requires log != [] && log[|log| - 1] == x && |times| == |log| - 1
      requires Nasdaq in feedStates && Nyse in feedStates
      requires forall symbol, venue :: LastPublished(symbol, venue) == LastAt(log[..|log| - 1], times, symbol, venue)
      modifies this`feedStates, this`lastPublish, this`times
      ensures FeedsOk() && times == old(times) + [now]
      ensures feedStates == old(feedStates)[x.venue := Connected]
    {
      hide LastAt;
      ghost var front := log[..|log| - 1];
      assert log == front + [x];
      lastPublish := lastPublish[(x.symbol, x.venue) := now];
      times := times + [now];
      feedStates := feedStates[x.venue := Connected];
      forall symbol, venue
        ensures LastPublished(symbol, venue) == LastAt(log, times, symbol, venue)
      {
        LastAtNext(front, old(times), x, now, symbol, venue);
        assert old(LastPublished(symbol, venue)) == LastAt(front, old(times), symbol, venue);
      }
    }

    /** Every matching subscriber gets the snapshot; no other subscriber is touched. The feed of
        its venue counts as connected from now on. */
    method Publish(x: Snapshot, now: real)
      requires Valid()
      modifies this`history, this`log, this`times, this`subscriberDropCount, this`feedStates, this`lastPublish, subscriptions
      ensures Valid() && log == old(log) + [x] && times == old(times) + [now]
      ensures forall s :: s in subscriptions && s.venue == x.venue && x.symbol in s.symbols ==>
                s.queue == Push(old(s.queue), subscriberLimit, x) && s.history == old(s.history) + [Arrives(x)]
      ensures forall s :: s in subscriptions && !(s.venue == x.venue && x.symbol in s.symbols) ==> s.queue == old(s.queue) && s.history == old(s.history)
      ensures subscriberDropCount == old(subscriberDropCount) + |old(Losing(subscriptions, x))|
      ensures feedStates == old(feedStates)[x.venue := Connected]
    {
      hide Push, ReactAll, OfKey, LastOf, Subscription.Valid, Ready, Matching, Arrivals, LastAt;
      Remember(x);
      assert log[..|log| - 1] == old(log);
      Stamp(x, now);
      Distribute(x);
      forall s | s in subscriptions
        ensures Served(s)
      {
        assert old(Served(s));
        OneMoreMatching(old(log), s.joined, x, s.symbols, s.venue);
        OneMoreArrival(old(s.history), Arrives(x));
      }
    }

    method MarkFeedState(venue: Venue, state: FeedState)
      requires Valid()
      modifies this`feedStates
      ensures Valid() && feedStates == old(feedStates)[venue := state]
    {
      feedStates := feedStates[venue := state];
    }

    /** A key is healthy exactly if its venue's feed is connected and its last publish, as the
        log has it, is at most `maxAge` old; a limit that is not positive is an error. */
    method SnapshotHealth(symbol: string, venue: Venue, maxAge: real, now: real) returns (health: Option<Health>)
      requires Valid()
      ensures health.None? <==> maxAge <= 0.0
      ensures health.Some? ==>
                var at := LastAt(log, times, symbol, venue);
                && (health.value.healthy <==>
                      venue in feedStates && feedStates[venue].Connected? && at.Some? && Max(now - at.value, 0.0) <= maxAge)
                && (health.value.age.Some? <==> venue in feedStates && feedStates[venue].Connected? && at.Some?)
                && (health.value.age.Some? ==> health.value.age.value == Max(now - at.value, 0.0))
                && (health.value.healthy <==> health.value.why.SnapshotFresh?)
                && (health.value.why.SnapshotStale? <==> health.value.age.Some? && !health.value.healthy)
                && (health.value.why.SnapshotMissing? <==> venue in feedStates && feedStates[venue].Connected? && at.None?)
                && (health.value.why.FeedDown? ==> venue in feedStates && health.value.why.state == feedStates[venue] != Connected)
    {
      if maxAge <= 0.0 {
        return None;
      }
      assert LastPublished(symbol, venue) == LastAt(log, times, symbol, venue);
      assert venue in feedStates by { assert venue == Nasdaq || venue == Nyse; }
      var state := feedStates[venue];
      if !state.Connected? {
        return Some(Health(false, None, FeedDown(state)));
      }
      if (symbol, venue) !in lastPublish {
        return Some(Health(false, None, SnapshotMissing));
      }
      var age := Max(now - lastPublish[(symbol, venue)], 0.0);
      if age > maxAge {
        return Some(Health(false, Some(age), SnapshotStale));
      }
      return Some(Health(true, Some(age), SnapshotFresh));
    }

    /** The subscriber takes the oldest item of its own queue. */
    method Consume(s: Subscription) returns (x: Snapshot)
      requires Valid() && s in subscriptions && s.queue != []
      modifies s
      ensures Valid() && s.history == old(s.history) + [Takes]
      ensures x == old(s.queue)[0] && s.queue == old(s.queue)[1..]
    {
      hide Push, ReactAll, OfKey, LastOf, Matching, Arrivals;
      OneMoreArrival(s.history, Takes);
      assert Ready(s) && Served(s);
      x := s.Take();
    }

    /** Since a subscriber joined, the matching publishes are the ones it consumed, the ones it
        lost and the ones still queued; the queue is bounded and holds the newest of them in
        order, and nothing was lost as long as all of them fit. */
    lemma QueueRefinesLog(s: Subscription)
      requires Valid() && s in subscriptions
      ensures var matching := Matching(log[s.joined..], s.symbols, s.venue);
              var f := ReactAll(subscriberLimit, s.history);
              && s.queue == f.queue && s.drops == f.dropped
              && |matching| == f.taken + s.drops + |s.queue|
              && s.queue == LastOf(matching, |s.queue|)
              && |s.queue| <= subscriberLimit
              && (|matching| <= subscriberLimit ==> s.drops == 0)
    {
      hide Matching, Arrivals, ReactAll, OfKey;
      assert Ready(s) && Served(s);
      FanoutConserves(subscriberLimit, s.history);
    }

    /** The last `limit` publishes for the key, or as many as the history still holds. */
    method Recent(symbol: string, venue: Venue, limit: int) returns (values: Option<seq<Snapshot>>)
      requires Valid()
      ensures values.None? <==> limit < 1 || limit > 1000
      ensures values.Some? ==>
                values.value == LastOf(OfKey(log, symbol, venue), if limit < historyLimit then limit else historyLimit)
    {
      if limit < 1 || limit > 1000 {
        return None;
      }
      var all := Kept(symbol, venue);
      assert all == LastOf(OfKey(log, symbol, venue), historyLimit);
      values := Some(if |all| <= limit then all else all[|all| - limit..]);
    }

    method Subscribe(symbols: set<string>, venue: Venue) returns (subscription: Option<Subscription>)
      requires Valid()
      modifies this`subscriptions
      ensures Valid()
      ensures subscription.None? <==> symbols == {}
      ensures subscription.None? ==> subscriptions == old(subscriptions)
      ensures subscription.Some? ==>
                var s := subscription.value;
                && fresh(s) && subscriptions == old(subscriptions) + {s}
                && s.symbols == symbols && s.venue == venue && s.history == [] && s.queue == [] && s.joined == |log|
    {
      if symbols == {} {
        return None;
      }
      var s := new Subscription(symbols, venue, subscriberLimit, |log|);
      subscriptions := subscriptions + {s};
      return Some(s);
    }

    method Unsubscribe(subscription: Subscription)
      requires Valid()
      modifies this`subscriptions
      ensures Valid() && subscriptions == old(subscriptions) - {subscription}
    {
      subscriptions := subscriptions - {subscription};
    }
  }
}
