/** The tolerant summary of a raw option chain: it counts what it can read and skips the rest. */
module ChainMetadata {
  import opened Common
  import opened Payloads
  import opened Freshness

  type Fields = seq<(Json, Json)>

  /** One contract as the payload lists it, under the strike it is filed at. */
  datatype Row = Row(strike: Float, contract: Json)

  function RowsAt(strike: Float, items: seq<Json>): (rows: seq<Row>)
    ensures |rows| == |items|
    ensures forall k :: 0 <= k < |items| ==> rows[k] == Row(strike, items[k])
  {
    seq(|items|, k requires 0 <= k < |items| => Row(strike, items[k]))
  }

  /** What a tolerant reader finds below one expiration: unreadable strikes are skipped. */
  function ListedStrikes(py: Python, strikes: Fields): Result<seq<Row>> {
    if strikes == [] then Ok([])
    else
      var before :- ListedStrikes(py, strikes[..|strikes| - 1]);
      var (key, options) := strikes[|strikes| - 1];
      if !options.List? then Ok(before)
      else
        match py.toFloat(key)
        case Is(strike) => Ok(before + RowsAt(strike, options.items))
        case Refused => Ok(before)
        case Overflows => Raises
  }

  predicate IsFor(key: Json, expiration: string) {
    key.Text? && ContainsText(key.s, expiration)
  }

  function ListedEntries(py: Python, entries: Fields, expiration: string): Result<seq<Row>> {
    if entries == [] then Ok([])
    else
      var before :- ListedEntries(py, entries[..|entries| - 1], expiration);
      var (key, strikes) := entries[|entries| - 1];
      if !IsFor(key, expiration) || !strikes.Object? then Ok(before)
      else
        var more :- ListedStrikes(py, strikes.fields);
        Ok(before + more)
  }

  function Listed(py: Python, expMap: Json, expiration: string): Result<seq<Row>> {
    if expMap.Object? then ListedEntries(py, expMap.fields, expiration) else Ok([])
  }

  function Strikes(rows: seq<Row>): set<Float> {
    set row | row in rows :: row.strike
  }

  datatype Tally = Tally(contracts: nat, strikes: set<Float>)

  function TallyOf(rows: seq<Row>): Tally {
    Tally(|rows|, Strikes(rows))
  }

  lemma StrikesOfMore(rows: seq<Row>, strike: Float, items: seq<Json>)
    ensures Strikes(rows + RowsAt(strike, items)) == if items == [] then Strikes(rows) else Strikes(rows) + {strike}
  {
    var more := RowsAt(strike, items);
    if items != [] {
      assert more[0] in rows + more;
    }
  }

  lemma StrikesOfBoth(a: seq<Row>, b: seq<Row>)
    ensures Strikes(a + b) == Strikes(a) + Strikes(b)
  {
  }

  /** The strikes of one expiration, added to a running tally. */
  method CountStrikes(py: Python, strikes: Fields, tally: Tally) returns (r: Result<Tally>)
    ensures var listed := ListedStrikes(py, strikes);
            r == if listed.Raises? then Raises
                 else Ok(Tally(tally.contracts + |listed.value|, tally.strikes + Strikes(listed.value)))
  {
    var contracts, found := tally.contracts, tally.strikes;
    for i := 0 to |strikes|
      invariant var listed := ListedStrikes(py, strikes[..i]);
                listed.Ok? && contracts == tally.contracts + |listed.value| && found == tally.strikes + Strikes(listed.value)
    {
      assert strikes[..i + 1][..i] == strikes[..i];
      ghost var before := ListedStrikes(py, strikes[..i]).value;
      var (key, options) := strikes[i];
      if !options.List? {
        continue;
      }
      var strike := py.toFloat(key);
      if strike.Overflows? {
        RaisingPersists(py, strikes, i + 1);
        return Raises;
      }
      if strike.Refused? {
        continue;
      }
      StrikesOfMore(before, strike.value, options.items);
      if options.items == [] {
        continue;
      }
      found := found + {strike.value};
      contracts := contracts + |options.items|;
    }
    assert strikes[..|strikes|] == strikes;
    r := Ok(Tally(contracts, found));
  }

  lemma {:induction false} RaisingPersists(py: Python, strikes: Fields, i: nat)
    requires i <= |strikes| && ListedStrikes(py, strikes[..i]).Raises?
    ensures ListedStrikes(py, strikes).Raises?
    decreases |strikes|
  {
    if i == |strikes| {
      assert strikes[..i] == strikes;
    } else {
      assert strikes[..|strikes| - 1][..i] == strikes[..i];
      RaisingPersists(py, strikes[..|strikes| - 1], i);
    }
  }

  lemma {:induction false} RaisingEntryPersists(py: Python, entries: Fields, expiration: string, i: nat)
    requires i <= |entries| && ListedEntries(py, entries[..i], expiration).Raises?
    ensures ListedEntries(py, entries, expiration).Raises?
    decreases |entries|
  {
    if i == |entries| {
      assert entries[..i] == entries;
    } else {
      assert entries[..|entries| - 1][..i] == entries[..i];
      RaisingEntryPersists(py, entries[..|entries| - 1], expiration, i);
    }
  }

  /** Contracts of one expiration and the distinct strikes that carry at least one. */
  method CountExpiration(py: Python, expMap: Json, expiration: string) returns (r: Result<Tally>)
    ensures var listed := Listed(py, expMap, expiration);
            r == if listed.Raises? then Raises else Ok(TallyOf(listed.value))
  {
    if !expMap.Object? {
      r := Ok(Tally(0, {}));
      assert r.value == TallyOf([]);
      return;
    }
    var entries := expMap.fields;
    var tally := Tally(0, {});
    for i := 0 to |entries|
      invariant var listed := ListedEntries(py, entries[..i], expiration);
                listed.Ok? && tally == TallyOf(listed.value)
    {
      assert entries[..i + 1][..i] == entries[..i];
      var (key, strikes) := entries[i];
      if !IsFor(key, expiration) {
        continue;
      }
      if !strikes.Object? {
        continue;
      }
      var more := CountStrikes(py, strikes.fields, tally);
      if more.Raises? {
        RaisingEntryPersists(py, entries, expiration, i + 1);
        return Raises;
      }
      StrikesOfBoth(ListedEntries(py, entries[..i], expiration).value, ListedStrikes(py, strikes.fields).value);
      tally := more.value;
    }
    assert entries[..|entries|] == entries;
    r := Ok(tally);
  }

  datatype Summary = Summary(
    underlyingPrice: Option<Float>,
    calls: nat,
    puts: nat,
    strikes: nat,
    event: Option<real>,
    flags: seq<Flag>
  )

  function Later(a: Option<real>, b: Option<real>): Option<real> {
    if a.None? then b else if b.None? then a else Some(Max(a.value, b.value))
  }

  function EpochMillis(py: Python, o: Fields, name: string): Result<Option<real>> {
    var value := Get(o, name);
    if value.Null? then Ok(None)
    else
    match py.toInt(value)
    case Refused => Ok(None)
    case Overflows => Raises
    case Is(millis) =>
      if millis <= 0 then Ok(None)
      else
        var at := py.toInstant(millis);
        if at.Is? then Ok(Some(at.value)) else Raises
  }

  function UnderlyingEventTime(py: Python, payload: Fields): Result<Option<real>> {
    var underlying := Get(payload, "underlying");
    if !underlying.Object? then Ok(None)
    else
      var quoted :- EpochMillis(py, underlying.fields, "quoteTime");
      var traded :- EpochMillis(py, underlying.fields, "tradeTime");
      Ok(Later(quoted, traded))
  }

  function SummaryFlags(price: Option<Float>, calls: nat, puts: nat, event: Option<real>): seq<Flag> {
    When(price.None?, MissingUnderlyingPrice)
    + When(calls == 0, MissingCallContracts)
    + When(puts == 0, MissingPutContracts)
    + When(event.None?, MissingEventTimestamp)
  }

  function Summarized(py: Python, payload: Json, expiration: string): Result<Summary> {
    if !payload.Object? then Raises
    else
      var calls :- Listed(py, Get(payload.fields, "callExpDateMap"), expiration);
      var puts :- Listed(py, Get(payload.fields, "putExpDateMap"), expiration);
      var price :- ReadFloat(py, payload.fields, "underlyingPrice");
      var event :- UnderlyingEventTime(py, payload.fields);
      Ok(Summary(price, |calls|, |puts|, |Strikes(calls + puts)|, event,
                 SummaryFlags(price, |calls|, |puts|, event)))
  }

  // ---------------------------------------------------------------------------------------
  // Exactly when the summary fails.
  // ---------------------------------------------------------------------------------------

  /** A strike that carries a list of contracts under a key too large for `float`. */
  ghost predicate HasOversizedStrike(py: Python, strikes: Fields) {
    exists i :: 0 <= i < |strikes| && strikes[i].1.List? && py.toFloat(strikes[i].0).Overflows?
  }

  ghost predicate IsOversizedEntry(py: Python, entry: (Json, Json), expiration: string) {
    IsFor(entry.0, expiration) && entry.1.Object? && HasOversizedStrike(py, entry.1.fields)
  }

  ghost predicate HasOversizedEntry(py: Python, entries: Fields, expiration: string) {
    exists i :: 0 <= i < |entries| && IsOversizedEntry(py, entries[i], expiration)
  }

  ghost predicate HasOversizedKey(py: Python, expMap: Json, expiration: string) {
    expMap.Object? && HasOversizedEntry(py, expMap.fields, expiration)
  }

  predicate IsOversized(py: Python, o: Fields, name: string) {
    !Get(o, name).Null? && py.toFloat(Get(o, name)).Overflows?
  }

  /** Epoch milliseconds that are too large for `int`, or name no representable instant. */
  predicate IsBadEpoch(py: Python, o: Fields, name: string) {
    var value := Get(o, name);
    && !value.Null?
    && match py.toInt(value)
       case Refused => false
       case Overflows => true
       case Is(millis) => millis > 0 && !py.toInstant(millis).Is?
  }

  predicate HasBadEpoch(py: Python, underlying: Json) {
    underlying.Object? && (IsBadEpoch(py, underlying.fields, "quoteTime") || IsBadEpoch(py, underlying.fields, "tradeTime"))
  }

  lemma {:induction false} StrikesFailIff(py: Python, strikes: Fields)
    ensures ListedStrikes(py, strikes).Raises? <==> HasOversizedStrike(py, strikes)
  {
    if strikes != [] {
      var n := |strikes| - 1;
      StrikesFailIff(py, strikes[..n]);
      assert HasOversizedStrike(py, strikes)
        <==> HasOversizedStrike(py, strikes[..n]) || (strikes[n].1.List? && py.toFloat(strikes[n].0).Overflows?) by {
        forall i | 0 <= i < n
          ensures strikes[..n][i] == strikes[i]
        {
        }
      }
    }
  }

  lemma {:induction false} EntriesFailIff(py: Python, entries: Fields, expiration: string)
    ensures ListedEntries(py, entries, expiration).Raises? <==> HasOversizedEntry(py, entries, expiration)
  {
    if entries != [] {
      var n := |entries| - 1;
      EntriesFailIff(py, entries[..n], expiration);
      if entries[n].1.Object? {
        StrikesFailIff(py, entries[n].1.fields);
      }
      hide ListedStrikes, HasOversizedStrike, IsFor;
      assert HasOversizedEntry(py, entries, expiration)
        <==> HasOversizedEntry(py, entries[..n], expiration) || IsOversizedEntry(py, entries[n], expiration) by {
        forall i | 0 <= i < n
          ensures entries[..n][i] == entries[i]
        {
        }
      }
    }
  }

  /** The documentation promises a failure only for a payload that is not an object. The code
      fails exactly for that, for a number too large for its conversion, and for an underlying
      time outside the representable years. */
  lemma SummaryFailsIff(py: Python, payload: Json, expiration: string)
    ensures Summarized(py, payload, expiration).Raises? <==>
              || !payload.Object?
              || HasOversizedKey(py, Get(payload.fields, "callExpDateMap"), expiration)
              || HasOversizedKey(py, Get(payload.fields, "putExpDateMap"), expiration)
              || IsOversized(py, payload.fields, "underlyingPrice")
              || HasBadEpoch(py, Get(payload.fields, "underlying"))
  {
    if payload.Object? {
      var calls, puts := Get(payload.fields, "callExpDateMap"), Get(payload.fields, "putExpDateMap");
      hide Get, ListedEntries, HasOversizedEntry, Strikes, SummaryFlags;
      if calls.Object? {
        EntriesFailIff(py, calls.fields, expiration);
      }
      if puts.Object? {
        EntriesFailIff(py, puts.fields, expiration);
      }
    }
  }

  const LAST_MILLIS := 253402300799999

  /** Conversions that know integers and, like the language's own dates, end with year 9999. */
  function PlainPython(): Python {
    Python(
      (_: Json) => Refused,
      (v: Json) => if v.Integer? then Is(v.i) else Refused,
      (_: Json) => Refused,
      (millis: int) => if millis <= LAST_MILLIS then Is(millis as real / 1000.0) else Refused,
      (_: real) => Eastern(0, 0.0))
  }

  /** An object that the summary nevertheless refuses: a quote time far past the year 9999. */
  lemma SummaryMayFailOnAnObject()
    ensures var underlying := Object([(Text("quoteTime"), Integer(1_000_000_000_000_000_000))]);
            Summarized(PlainPython(), Object([(Text("underlying"), underlying)]), "2026-01-16").Raises?
  {
    var quoteTime := Integer(1_000_000_000_000_000_000);
    var underlying := Object([(Text("quoteTime"), quoteTime)]);
    assert Get(underlying.fields, "quoteTime") == quoteTime;
    assert Get([(Text("underlying"), underlying)], "underlying") == underlying;
    SummaryFailsIff(PlainPython(), Object([(Text("underlying"), underlying)]), "2026-01-16");
  }

  method ExtractChainMetadata(py: Python, payload: Json, expiration: string) returns (r: Result<Summary>)
    ensures r == Summarized(py, payload, expiration)
  {
    hide Listed, ListedEntries, Strikes, Get, ReadFloat, UnderlyingEventTime;
    if !payload.Object? {
      return Raises;
    }
    var calls :- CountExpiration(py, Get(payload.fields, "callExpDateMap"), expiration);
    var puts :- CountExpiration(py, Get(payload.fields, "putExpDateMap"), expiration);
    StrikesOfBoth(Listed(py, Get(payload.fields, "callExpDateMap"), expiration).value,
                  Listed(py, Get(payload.fields, "putExpDateMap"), expiration).value);
    var price :- ReadFloat(py, payload.fields, "underlyingPrice");
    var event :- UnderlyingEventTime(py, payload.fields);
    var flags: seq<Flag> := [];
    if price.None? {
      flags := flags + [MissingUnderlyingPrice];
    }
    if calls.contracts == 0 {
      flags := flags + [MissingCallContracts];
    }
    if puts.contracts == 0 {
      flags := flags + [MissingPutContracts];
    }
    if event.None? {
      flags := flags + [MissingEventTimestamp];
    }
    assert flags == SummaryFlags(price, calls.contracts, puts.contracts, event);
    r := Ok(Summary(price, calls.contracts, puts.contracts, |calls.strikes + puts.strikes|, event, flags));
  }
}
