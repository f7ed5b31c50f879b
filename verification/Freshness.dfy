/** Ages, staleness and the data-quality flags that follow them. */
module Freshness {
  import opened Common

  datatype Flag =
    | StaleFlag
    | StaleContractsPresent
    | MissingEventTimestamp
    | MissingContractEventTimestamp
    | CrossedMarketNormalized
    | CrossedMarketsNormalized
    | MissingUnderlyingPrice
    | MissingCallContracts
    | MissingPutContracts
    | MarketHoliday
    | EarlyClose
    | MalformedBarsDropped
    | NoBarsReturned

  /** Instants are seconds. */
  function AgeSeconds(event: Option<real>, at: real): Option<real> {
    if event.None? then None else Some(Max(0.0, at - event.value))
  }

  /** An unknown age is always stale. */
  predicate IsStale(event: Option<real>, at: real, staleAfter: real) {
    var age := AgeSeconds(event, at);
    age.None? || age.value > staleAfter
  }

  function Dropping(flags: seq<Flag>, drop: set<Flag>): (r: seq<Flag>)
    ensures forall f :: f in r <==> f in flags && f !in drop
  {
    if flags == [] then []
    else if flags[0] in drop then Dropping(flags[1..], drop)
    else [flags[0]] + Dropping(flags[1..], drop)
  }

  function When(condition: bool, flag: Flag): (r: seq<Flag>)
    ensures forall f :: f in r <==> condition && f == flag
  {
    if condition then [flag] else []
  }

  function Refreshed(flags: seq<Flag>, stale: bool): seq<Flag> {
    Dropping(flags, {StaleFlag}) + When(stale, StaleFlag)
  }

  lemma {:induction false} DroppingNothing(flags: seq<Flag>, drop: set<Flag>)
    requires forall f :: f in flags ==> f !in drop
    ensures Dropping(flags, drop) == flags
  {
    if flags != [] {
      assert flags[0] in flags && forall f :: f in flags[1..] ==> f in flags;
      DroppingNothing(flags[1..], drop);
    }
  }

  lemma {:induction false} DroppingAppended(a: seq<Flag>, b: seq<Flag>, drop: set<Flag>)
    ensures Dropping(a + b, drop) == Dropping(a, drop) + Dropping(b, drop)
  {
    if a == [] {
      assert a + b == b;
    } else {
      assert (a + b)[0] == a[0] && (a + b)[1..] == a[1..] + b;
      DroppingAppended(a[1..], b, drop);
    }
  }

  lemma {:induction false} DroppingEverything(flags: seq<Flag>, drop: set<Flag>)
    requires forall f :: f in flags ==> f in drop
    ensures Dropping(flags, drop) == []
  {
    if flags != [] {
      assert flags[0] in flags && forall f :: f in flags[1..] ==> f in flags;
      DroppingEverything(flags[1..], drop);
    }
  }

  /** Whatever stale flags ended the list, dropping them gives the rest back. */
  lemma DroppingTail(flags: seq<Flag>, tail: seq<Flag>, drop: set<Flag>)
    requires forall f :: f in flags ==> f !in drop
    requires forall f :: f in tail ==> f in drop
    ensures Dropping(flags + tail, drop) == flags
  {
    DroppingAppended(flags, tail, drop);
    DroppingNothing(flags, drop);
    DroppingEverything(tail, drop);
  }
}
