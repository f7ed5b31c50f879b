/** Where every field of a delivered contract and chain comes from, and exactly which contracts
    and chains are accepted, said on the payload's own fields and the language's conversions. */
module OptionChainFields {
  import opened Common
  import opened Payloads
  import opened Freshness
  import opened ChainMetadata
  import opened OptionChains
  import opened OptionChainLaws

  // ---------------------------------------------------------------------------------------
  // One field.
  // ---------------------------------------------------------------------------------------

  /** The value is the field's number; it is missing if the field is absent, null or unreadable. */
  predicate FloatOf(py: Python, o: Fields, name: string, v: Option<Float>) {
    var raw := Get(o, name);
    if raw.Null? then v.None? else (v.Some? && py.toFloat(raw) == Is(v.value)) || (v.None? && py.toFloat(raw) == Refused)
  }

  predicate IntOf(py: Python, o: Fields, name: string, v: Option<int>) {
    var raw := Get(o, name);
    if raw.Null? then v.None? else (v.Some? && py.toInt(raw) == Is(v.value)) || (v.None? && py.toInt(raw) == Refused)
  }

  /** An analytic is missing also when it is the provider's marker for that. */
  predicate AnalyticOf(py: Python, o: Fields, name: string, v: Option<Float>) {
    var raw := Get(o, name);
    if raw.Null? || py.toFloat(raw) == Refused || py.toFloat(raw) == Is(Finite(-999.0)) then v.None?
    else v.Some? && py.toFloat(raw) == Is(v.value)
  }

  predicate BelowZero(x: Float) {
    (x.Finite? && x.v < 0.0) || x == Infinite(true)
  }

  /** A value that cannot be negative is missing also when it is. */
  predicate NonnegativeOf(py: Python, o: Fields, name: string, v: Option<Float>) {
    var raw := Get(o, name);
    if raw.Null? || py.toFloat(raw) == Refused || (py.toFloat(raw).Is? && BelowZero(py.toFloat(raw).value)) then v.None?
    else v.Some? && py.toFloat(raw) == Is(v.value)
  }

  const TIME_FIELDS := ["quoteTime", "tradeTime", "quoteTimeInLong", "tradeTimeInLong"]

  /** The field's positive number of milliseconds, if it holds one. */
  function MillisOf(py: Python, o: Fields, name: string): Option<int> {
    var raw := Get(o, name);
    if raw.Null? then None
    else
      match py.toInt(raw)
      case Is(millis) => if millis > 0 then Some(millis) else None
      case _ => None
  }

  /** The field's time is the latest of the four. */
  ghost predicate IsLatestTime(py: Python, o: Fields, name: string) {
    && name in TIME_FIELDS && MillisOf(py, o, name).Some?
    && forall other :: other in TIME_FIELDS && MillisOf(py, o, other).Some? ==>
         MillisOf(py, o, other).value <= MillisOf(py, o, name).value
  }

  /** The event is the instant of the latest positive time, if there is one at all. */
  ghost predicate EventOf(py: Python, o: Fields, event: Option<real>) {
    if event.None? then forall name :: name in TIME_FIELDS ==> MillisOf(py, o, name).None?
    else exists name :: IsLatestTime(py, o, name) && py.toInstant(MillisOf(py, o, name).value) == Is(event.value)
  }

  predicate TimeOverflows(py: Python, o: Fields, name: string) {
    !Get(o, name).Null? && py.toInt(Get(o, name)).Overflows?
  }

  /** No conversion fails, and the latest time, if any, names a representable instant. */
  ghost predicate EventReadable(py: Python, o: Fields) {
    && (forall name :: name in TIME_FIELDS ==> !TimeOverflows(py, o, name))
    && (forall name :: IsLatestTime(py, o, name) ==> py.toInstant(MillisOf(py, o, name).value).Is?)
  }

  lemma FloatIsOf(py: Python, o: Fields, name: string)
    ensures var r := ReadFloat(py, o, name);
            && (r.Raises? <==> !Get(o, name).Null? && py.toFloat(Get(o, name)).Overflows?)
            && (r.Ok? ==> FloatOf(py, o, name, r.value))
  {
  }

  lemma IntIsOf(py: Python, o: Fields, name: string)
    ensures var r := ReadInt(py, o, name);
            && (r.Raises? <==> TimeOverflows(py, o, name))
            && (r.Ok? ==> IntOf(py, o, name, r.value))
            && (r.Ok? ==> Positive(r.value) == Singleton(MillisOf(py, o, name)))
  {
  }

  lemma AnalyticIsOf(py: Python, o: Fields, name: string)
    ensures var r := Analytic(py, o, name);
            && (r.Raises? <==> !Get(o, name).Null? && py.toFloat(Get(o, name)).Overflows?)
            && (r.Ok? ==> AnalyticOf(py, o, name, r.value))
  {
  }

  lemma NonnegativeIsOf(py: Python, o: Fields, name: string)
    ensures var r := NonnegativeAnalytic(py, o, name);
            && (r.Raises? <==> !Get(o, name).Null? && py.toFloat(Get(o, name)).Overflows?)
            && (r.Ok? ==> NonnegativeOf(py, o, name, r.value))
  {
  }

  lemma FourTimes(name: string)
    ensures name in TIME_FIELDS <==>
              name == "quoteTime" || name == "tradeTime" || name == "quoteTimeInLong" || name == "tradeTimeInLong"
  {
    assert TIME_FIELDS[0] in TIME_FIELDS && TIME_FIELDS[1] in TIME_FIELDS && TIME_FIELDS[2] in TIME_FIELDS && TIME_FIELDS[3] in TIME_FIELDS;
  }

  lemma EventIsOf(py: Python, o: Fields)
    ensures var r := EventTime(py, o);
            && (r.Ok? <==> EventReadable(py, o))
            && (r.Ok? ==> EventOf(py, o, r.value))
  {
    hide ReadInt, Get, Positive, MillisOf, TimeOverflows, EventReadable, EventOf, Singleton, IntOf;
    IntIsOf(py, o, "quoteTime");
    IntIsOf(py, o, "tradeTime");
    IntIsOf(py, o, "quoteTimeInLong");
    IntIsOf(py, o, "tradeTimeInLong");
    var quote, trade := ReadInt(py, o, "quoteTime"), ReadInt(py, o, "tradeTime");
    var quoteLong, tradeLong := ReadInt(py, o, "quoteTimeInLong"), ReadInt(py, o, "tradeTimeInLong");
    if quote.Ok? && trade.Ok? && quoteLong.Ok? && tradeLong.Ok? {
      var candidates := Positive(quote.value) + Positive(trade.value) + Positive(quoteLong.value) + Positive(tradeLong.value);
      CandidatesAreTimes(py, o, candidates, quote.value, trade.value, quoteLong.value, tradeLong.value);
      NothingOverflows(py, o);
      if candidates == [] {
        NoTimes(py, o);
      } else {
        LatestDecides(py, o, candidates);
      }
    } else {
      SomethingOverflows(py, o);
    }
  }

  lemma NothingOverflows(py: Python, o: Fields)
    requires !TimeOverflows(py, o, "quoteTime") && !TimeOverflows(py, o, "tradeTime")
    requires !TimeOverflows(py, o, "quoteTimeInLong") && !TimeOverflows(py, o, "tradeTimeInLong")
    ensures forall name :: name in TIME_FIELDS ==> !TimeOverflows(py, o, name)
  {
    forall name | name in TIME_FIELDS
      ensures !TimeOverflows(py, o, name)
    {
      FourTimes(name);
    }
  }

  lemma SomethingOverflows(py: Python, o: Fields)
    requires TimeOverflows(py, o, "quoteTime") || TimeOverflows(py, o, "tradeTime")
             || TimeOverflows(py, o, "quoteTimeInLong") || TimeOverflows(py, o, "tradeTimeInLong")
    ensures !EventReadable(py, o)
  {
    hide TimeOverflows;
    FourTimes("quoteTime");
    FourTimes("tradeTime");
    FourTimes("quoteTimeInLong");
    FourTimes("tradeTimeInLong");
  }

  lemma NoTimes(py: Python, o: Fields)
    requires Collects(py, o, []) && forall name :: name in TIME_FIELDS ==> !TimeOverflows(py, o, name)
    ensures EventReadable(py, o) && EventOf(py, o, None)
  {
    hide MillisOf, TimeOverflows;
  }

  lemma LatestDecides(py: Python, o: Fields, candidates: seq<int>)
    requires candidates != [] && Collects(py, o, candidates)
    requires forall name :: name in TIME_FIELDS ==> !TimeOverflows(py, o, name)
    ensures var at := py.toInstant(Greatest(candidates));
            (at.Is? <==> EventReadable(py, o)) && (at.Is? ==> EventOf(py, o, Some(at.value)))
  {
    hide MillisOf, TimeOverflows, IsLatestTime, Collects;
    LatestIsGreatest(py, o, candidates, Greatest(candidates));
  }

  /** What is collected is exactly the positive times of the four fields. */
  ghost predicate Collects(py: Python, o: Fields, candidates: seq<int>) {
    && (forall name :: name in TIME_FIELDS && MillisOf(py, o, name).Some? ==> MillisOf(py, o, name).value in candidates)
    && (forall v :: v in candidates ==> exists name :: name in TIME_FIELDS && MillisOf(py, o, name) == Some(v))
  }

  lemma CandidatesAreTimes(
    py: Python, o: Fields, candidates: seq<int>, quote: Option<int>, trade: Option<int>, quoteLong: Option<int>, tradeLong: Option<int>)
    requires candidates == Positive(quote) + Positive(trade) + Positive(quoteLong) + Positive(tradeLong)
    requires Positive(quote) == Singleton(MillisOf(py, o, "quoteTime")) && Positive(trade) == Singleton(MillisOf(py, o, "tradeTime"))
    requires Positive(quoteLong) == Singleton(MillisOf(py, o, "quoteTimeInLong"))
    requires Positive(tradeLong) == Singleton(MillisOf(py, o, "tradeTimeInLong"))
    ensures Collects(py, o, candidates)
  {
    hide Positive, MillisOf;
    assert TIME_FIELDS[0] in TIME_FIELDS && TIME_FIELDS[1] in TIME_FIELDS && TIME_FIELDS[2] in TIME_FIELDS && TIME_FIELDS[3] in TIME_FIELDS;
  }

  function Singleton(v: Option<int>): seq<int> {
    if v.Some? then [v.value] else []
  }

  lemma LatestIsGreatest(py: Python, o: Fields, candidates: seq<int>, greatest: int)
    requires Collects(py, o, candidates) && greatest in candidates && forall v :: v in candidates ==> v <= greatest
    ensures exists name :: IsLatestTime(py, o, name)
    ensures forall name :: IsLatestTime(py, o, name) ==> MillisOf(py, o, name) == Some(greatest)
  {
    hide MillisOf;
    var name :| name in TIME_FIELDS && MillisOf(py, o, name) == Some(greatest);
    assert IsLatestTime(py, o, name);
  }
  // ---------------------------------------------------------------------------------------
  // One contract.
  // ---------------------------------------------------------------------------------------

  predicate FlagOf(py: Python, o: Fields, name: string, v: Option<bool>) {
    var raw := Get(o, name);
    if raw.Null? then v.None? else v.Some? && py.toBool(raw) == Is(v.value)
  }

  /** Every field of the contract comes from the payload field of its own name. */
  ghost predicate FieldsComeFrom(py: Python, o: Fields, side: Side, strike: Float, t: Terms) {
    && Get(o, "symbol") == Text(t.symbol) && t.side == side && t.strike == strike
    && FloatOf(py, o, "mark", t.mark) && FloatOf(py, o, "last", t.last) && FloatOf(py, o, "multiplier", t.multiplier)
    && IntOf(py, o, "totalVolume", t.totalVolume) && IntOf(py, o, "openInterest", t.openInterest)
    && IntOf(py, o, "bidSize", t.bidSize) && IntOf(py, o, "askSize", t.askSize)
    && IntOf(py, o, "daysToExpiration", t.daysToExpiration)
    && AnalyticOf(py, o, "volatility", t.volatility) && AnalyticOf(py, o, "delta", t.delta)
    && AnalyticOf(py, o, "gamma", t.gamma) && AnalyticOf(py, o, "theta", t.theta)
    && AnalyticOf(py, o, "vega", t.vega) && AnalyticOf(py, o, "rho", t.rho)
    && NonnegativeOf(py, o, "timeValue", t.timeValue)
    && NonnegativeOf(py, o, "theoreticalOptionValue", t.theoreticalValue)
    && FlagOf(py, o, "inTheMoney", t.inTheMoney)
    && EventOf(py, o, t.event)
    // The two prices are the two observed ones, the lower as bid.
    && (if t.crossed then FloatOf(py, o, "ask", t.bid) && FloatOf(py, o, "bid", t.ask)
        else FloatOf(py, o, "bid", t.bid) && FloatOf(py, o, "ask", t.ask))
    && IsFinite(t.bid) && IsFinite(t.ask) && t.bid.value.v <= t.ask.value.v
    && (t.crossed ==> t.bid.value.v < t.ask.value.v)
    && IntrinsicOf(py, o, t.intrinsicValue)
  }

  /** The intrinsic value is the field's number, never below zero. */
  predicate IntrinsicOf(py: Python, o: Fields, v: Option<Float>) {
    var raw := Get(o, "intrinsicValue");
    if raw.Null? then v.None?
    else
      && py.toFloat(raw).Is? && py.toFloat(raw).value.Finite?
      && v == Some(Finite(if py.toFloat(raw).value.v > 0.0 then py.toFloat(raw).value.v else 0.0))
  }

  lemma FieldsAreTheirOwn(py: Python, contract: Json, side: Side, strike: Float)
    ensures var r := ReadTerms(py, contract, side, strike);
            r.Ok? ==> contract.Object? && FieldsComeFrom(py, contract.fields, side, strike, r.value)
  {
    hide ReadFloat, ReadInt, Analytic, NonnegativeAnalytic, EventTime, Get, FloatOf, IntOf, AnalyticOf, NonnegativeOf, EventOf, IsBlank;
    var r := ReadTerms(py, contract, side, strike);
    if r.Ok? {
      var o := contract.fields;
      EventIsOf(py, o);
      FloatIsOf(py, o, "bid");
      FloatIsOf(py, o, "ask");
      FloatIsOf(py, o, "mark");
      FloatIsOf(py, o, "last");
      FloatIsOf(py, o, "multiplier");
      IntIsOf(py, o, "totalVolume");
      IntIsOf(py, o, "openInterest");
      IntIsOf(py, o, "bidSize");
      IntIsOf(py, o, "askSize");
      IntIsOf(py, o, "daysToExpiration");
      AnalyticIsOf(py, o, "volatility");
      AnalyticIsOf(py, o, "delta");
      AnalyticIsOf(py, o, "gamma");
      AnalyticIsOf(py, o, "theta");
      AnalyticIsOf(py, o, "vega");
      AnalyticIsOf(py, o, "rho");
      NonnegativeIsOf(py, o, "timeValue");
      NonnegativeIsOf(py, o, "theoreticalOptionValue");
    }
  }

  predicate GivesPrice(py: Python, o: Fields, name: string) {
    !Get(o, name).Null? && py.toFloat(Get(o, name)).Is? && py.toFloat(Get(o, name)).value.Finite? && py.toFloat(Get(o, name)).value.v >= 0.0
  }

  predicate Missing(py: Python, o: Fields, name: string) {
    Get(o, name).Null? || py.toFloat(Get(o, name)) == Refused
  }

  predicate GivesFinite(py: Python, o: Fields, name: string) {
    Missing(py, o, name) || (py.toFloat(Get(o, name)).Is? && py.toFloat(Get(o, name)).value.Finite?)
  }

  /** Also a negative infinity, which is dropped like every negative value. */
  predicate GivesNonnegative(py: Python, o: Fields, name: string) {
    GivesFinite(py, o, name) || py.toFloat(Get(o, name)) == Is(Infinite(true))
  }

  predicate GivesCount(py: Python, o: Fields, name: string) {
    Get(o, name).Null? || py.toInt(Get(o, name)) == Refused || (py.toInt(Get(o, name)).Is? && py.toInt(Get(o, name)).value >= 0)
  }

  predicate IsWhitespace(c: char) {
    c == ' ' || '\t' <= c <= '\r' || '\U{1C}' <= c <= '\U{1F}'
  }

  /** Exactly the contracts that are accepted. */
  ghost predicate IsAcceptable(py: Python, contract: Json, strike: Float) {
    && contract.Object?
    && var o := contract.fields;
    && strike.Finite? && strike.v > 0.0
    && Get(o, "symbol").Text? && (exists c :: c in Get(o, "symbol").s && !IsWhitespace(c))
    && GivesPrice(py, o, "bid") && GivesPrice(py, o, "ask") && GivesPrice(py, o, "mark")
    && (Missing(py, o, "last") || GivesPrice(py, o, "last"))
    && GivesCount(py, o, "totalVolume") && GivesCount(py, o, "openInterest") && GivesCount(py, o, "bidSize")
    && GivesCount(py, o, "askSize") && GivesCount(py, o, "daysToExpiration")
    && GivesFinite(py, o, "volatility") && GivesFinite(py, o, "delta") && GivesFinite(py, o, "gamma")
    && GivesFinite(py, o, "theta") && GivesFinite(py, o, "vega") && GivesFinite(py, o, "rho")
    && GivesFinite(py, o, "multiplier")
    && GivesNonnegative(py, o, "timeValue") && GivesNonnegative(py, o, "theoreticalOptionValue")
    && (Get(o, "intrinsicValue").Null?
        || ((Get(o, "intrinsicValue").Integer? || Get(o, "intrinsicValue").Number?)
            && py.toFloat(Get(o, "intrinsicValue")).Is? && py.toFloat(Get(o, "intrinsicValue")).value.Finite?))
    && (Get(o, "inTheMoney").Null? || py.toBool(Get(o, "inTheMoney")).Is?)
    && EventReadable(py, o)
  }

  lemma PriceIff(py: Python, o: Fields, name: string)
    ensures ReadFloat(py, o, name).Ok? && Price(ReadFloat(py, o, name).value) <==> GivesPrice(py, o, name)
  {
  }

  lemma LastIff(py: Python, o: Fields, name: string)
    ensures ReadFloat(py, o, name).Ok? && NonnegativeOrNone(ReadFloat(py, o, name).value)
       <==> Missing(py, o, name) || GivesPrice(py, o, name)
  {
  }

  lemma FiniteIff(py: Python, o: Fields, name: string)
    ensures ReadFloat(py, o, name).Ok? && FiniteOrNone(ReadFloat(py, o, name).value) <==> GivesFinite(py, o, name)
  {
  }

  lemma AnalyticIff(py: Python, o: Fields, name: string)
    ensures Analytic(py, o, name).Ok? && FiniteOrNone(Analytic(py, o, name).value) <==> GivesFinite(py, o, name)
  {
  }

  lemma NonnegativeIff(py: Python, o: Fields, name: string)
    ensures var r := NonnegativeAnalytic(py, o, name);
            && (r.Ok? && FiniteOrNone(r.value) <==> GivesNonnegative(py, o, name))
            && (r.Ok? && NonnegativeOrNone(r.value) <==> GivesNonnegative(py, o, name))
  {
  }

  lemma CountIff(py: Python, o: Fields, name: string)
    ensures ReadInt(py, o, name).Ok? && Counts(ReadInt(py, o, name).value) <==> GivesCount(py, o, name)
  {
  }

  lemma IntrinsicIff(py: Python, o: Fields)
    ensures var r, raw := IntrinsicValue(py, o), Get(o, "intrinsicValue");
            && (r.Ok? <==> raw.Null? || ((raw.Integer? || raw.Number?) && py.toFloat(raw).Is? && py.toFloat(raw).value.Finite?))
            && (r.Ok? ==> NonnegativeOrNone(r.value))
  {
  }

  lemma FlagIff(py: Python, o: Fields)
    ensures InTheMoney(py, o).Ok? <==> Get(o, "inTheMoney").Null? || py.toBool(Get(o, "inTheMoney")).Is?
  {
  }

  lemma BlankIff(s: string)
    ensures !IsBlank(s) <==> exists c :: c in s && !IsWhitespace(c)
  {
  }

  /** A contract is accepted exactly if every one of its fields is: a name, a positive strike,
      three prices, and nothing else present that is not what it should be. */
  lemma AcceptedIff(py: Python, contract: Json, side: Side, strike: Float)
    ensures ReadTerms(py, contract, side, strike).Ok? <==> IsAcceptable(py, contract, strike)
  {
    hide ReadFloat, ReadInt, Analytic, NonnegativeAnalytic, IntrinsicValue, InTheMoney, EventTime, EventReadable, EventOf, Get, IsBlank;
    hide GivesPrice, Missing, GivesFinite, GivesNonnegative, GivesCount, Counts, FiniteOrNone;
    if contract.Object? {
      var o := contract.fields;
      EventIsOf(py, o);
      PriceIff(py, o, "bid");
      PriceIff(py, o, "ask");
      PriceIff(py, o, "mark");
      LastIff(py, o, "last");
      CountIff(py, o, "totalVolume");
      CountIff(py, o, "openInterest");
      CountIff(py, o, "bidSize");
      CountIff(py, o, "askSize");
      CountIff(py, o, "daysToExpiration");
      AnalyticIff(py, o, "volatility");
      AnalyticIff(py, o, "delta");
      AnalyticIff(py, o, "gamma");
      AnalyticIff(py, o, "theta");
      AnalyticIff(py, o, "vega");
      AnalyticIff(py, o, "rho");
      FiniteIff(py, o, "multiplier");
      NonnegativeIff(py, o, "timeValue");
      NonnegativeIff(py, o, "theoreticalOptionValue");
      IntrinsicIff(py, o);
      FlagIff(py, o);
      if Get(o, "symbol").Text? {
        BlankIff(Get(o, "symbol").s);
      }
    }
  }

  // ---------------------------------------------------------------------------------------
  // Ages and flags.
  // ---------------------------------------------------------------------------------------

  /** An age is the time since the event, never negative; without an event, or with an age
      beyond the threshold, the reading is stale. */
  predicate IsAged(event: Option<real>, at: real, staleAfter: real, age: Option<real>, stale: bool) {
    && (age.Some? <==> event.Some?)
    && (event.Some? ==> age.value == if at > event.value then at - event.value else 0.0)
    && (stale <==> event.None? || (if at > event.value then at - event.value else 0.0) > staleAfter)
  }

  lemma StaleExactlyBeyondTheThreshold(event: Option<real>, at: real, staleAfter: real)
    ensures IsAged(event, at, staleAfter, AgeSeconds(event, at), IsStale(event, at, staleAfter))
  {
  }

  /** A delivered contract is aged by its own event, and its flags say what is so. */
  ghost predicate ContractSays(c: Contract, at: real, staleAfter: real) {
    && IsAged(c.terms.event, at, staleAfter, c.age, c.stale)
    && (StaleFlag in c.flags <==> c.stale)
    && (MissingEventTimestamp in c.flags <==> c.terms.event.None?)
    && (CrossedMarketNormalized in c.flags <==> c.terms.crossed)
    && |c.flags| == (if c.stale then 1 else 0) + (if c.terms.event.None? then 1 else 0) + (if c.terms.crossed then 1 else 0)
  }

  /** A delivered contract: its row's fields, aged now. */
  lemma ContractComesFromItsRow(py: Python, contract: Json, side: Side, strike: Float, at: real, staleAfter: real)
    ensures var r := NormalizedContract(py, contract, side, strike, at, staleAfter);
            && (r.Ok? <==> IsAcceptable(py, contract, strike))
            && (r.Ok? ==>
                  && contract.Object? && FieldsComeFrom(py, contract.fields, side, strike, r.value.terms)
                  && ContractSays(r.value, at, staleAfter))
  {
    hide ReadTerms, IsAcceptable, FieldsComeFrom;
    AcceptedIff(py, contract, side, strike);
    FieldsAreTheirOwn(py, contract, side, strike);
  }

  // ---------------------------------------------------------------------------------------
  // The whole chain.
  // ---------------------------------------------------------------------------------------

  function RowOf(calls: seq<Row>, puts: seq<Row>, k: nat): Row
    requires k < |calls| + |puts|
  {
    if k < |calls| then calls[k] else puts[k - |calls|]
  }

  /** Contract `k` carries the fields of row `k`, calls before puts. */
  ghost predicate RowsDelivered(py: Python, calls: seq<Row>, puts: seq<Row>, contracts: seq<Contract>, at: real, staleAfter: real) {
    && |contracts| == |calls| + |puts|
    && forall k :: 0 <= k < |contracts| ==>
         var row := RowOf(calls, puts, k);
         && row.contract.Object?
         && FieldsComeFrom(py, row.contract.fields, if k < |calls| then Call else Put, row.strike, contracts[k].terms)
         && ContractSays(contracts[k], at, staleAfter)
  }

  /** Every contract of a delivered chain carries the fields of its own row of the payload. */
  lemma ChainDeliversItsRows(py: Python, symbol: string, payload: Json, expiration: string, at: real, staleAfter: real)
    ensures var r := Normalized(py, symbol, payload, expiration, at, staleAfter);
            r.Ok? ==>
              && payload.Object?
              && var calls := Rows(py, Get(payload.fields, "callExpDateMap"), expiration);
              && var puts := Rows(py, Get(payload.fields, "putExpDateMap"), expiration);
              && calls.Ok? && puts.Ok? && RowsDelivered(py, calls.value, puts.value, r.value.contracts, at, staleAfter)
  {
    hide Normalized, Rows, Get, NormalizedContract, FieldsComeFrom, ContractSays, IsAcceptable;
    NothingIsTruncated(py, symbol, payload, expiration, at, staleAfter);
    var r := Normalized(py, symbol, payload, expiration, at, staleAfter);
    if r.Ok? {
      var calls := Rows(py, Get(payload.fields, "callExpDateMap"), expiration).value;
      var puts := Rows(py, Get(payload.fields, "putExpDateMap"), expiration).value;
      forall k | 0 <= k < |r.value.contracts|
        ensures var row := RowOf(calls, puts, k);
                && row.contract.Object?
                && FieldsComeFrom(py, row.contract.fields, if k < |calls| then Call else Put, row.strike, r.value.contracts[k].terms)
                && ContractSays(r.value.contracts[k], at, staleAfter)
      {
        var row := RowOf(calls, puts, k);
        ContractComesFromItsRow(py, row.contract, if k < |calls| then Call else Put, row.strike, at, staleAfter);
      }
    }
  }

  /** What a delivered chain says of itself. */
  ghost predicate ChainSays(py: Python, symbol: string, payload: Fields, expiration: string, at: real, chain: OptionChain) {
    && chain.symbol == symbol && chain.expiration == expiration && chain.receivedAt == at
    && FloatOf(py, payload, "underlyingPrice", chain.underlyingPrice)
    && (MissingUnderlyingPrice in chain.flags <==> chain.underlyingPrice.None?)
    && MissingEventTimestamp !in chain.flags
    && (MissingContractEventTimestamp in chain.flags <==> exists k :: 0 <= k < |chain.contracts| && chain.contracts[k].terms.event.None?)
    && (CrossedMarketsNormalized in chain.flags <==> exists k :: 0 <= k < |chain.contracts| && chain.contracts[k].terms.crossed)
    && (chain.age.Some? <==> chain.event.Some?)
    && (chain.event.Some? ==> chain.age == Some(if at > chain.event.value then at - chain.event.value else 0.0))
  }

  lemma CrossedIff(contracts: seq<Contract>, at: real, staleAfter: real)
    requires forall k :: 0 <= k < |contracts| ==> ContractSays(contracts[k], at, staleAfter)
    ensures AnyCrossed(contracts) <==> exists k :: 0 <= k < |contracts| && contracts[k].terms.crossed
  {
  }

  lemma TimestampedIff(contracts: seq<Contract>)
    requires contracts != []
    ensures !AllTimestamped(TermsOf(contracts)) <==> exists k :: 0 <= k < |contracts| && contracts[k].terms.event.None?
  {
    var terms := TermsOf(contracts);
    if k :| 0 <= k < |contracts| && contracts[k].terms.event.None? {
      assert terms[k] in terms;
    }
    if !AllTimestamped(terms) {
      var t :| t in terms && t.event.None?;
      var k :| 0 <= k < |terms| && terms[k] == t;
      assert contracts[k].terms.event.None?;
    }
  }

  lemma AssembledSays(py: Python, symbol: string, payload: Fields, expiration: string, summary: Summary, contracts: seq<Contract>, at: real, staleAfter: real)
    requires FloatOf(py, payload, "underlyingPrice", summary.underlyingPrice) && contracts != []
    requires SummaryFlagsSay(summary)
    requires forall k :: 0 <= k < |contracts| ==> ContractSays(contracts[k], at, staleAfter)
    ensures ChainSays(py, symbol, payload, expiration, at, Assembled(symbol, expiration, summary, contracts, at))
  {
    hide FloatOf, ContractSays, AnyCrossed, AllTimestamped, TermsOf, CountStale, CountSide, StrikesOf, LatestEvent, When, Dropping;
    CrossedIff(contracts, at, staleAfter);
    TimestampedIff(contracts);
  }

  predicate SummaryFlagsSay(summary: Summary) {
    && (MissingUnderlyingPrice in summary.flags <==> summary.underlyingPrice.None?)
    && (MissingCallContracts in summary.flags <==> summary.calls == 0)
    && (MissingPutContracts in summary.flags <==> summary.puts == 0)
    && (MissingEventTimestamp in summary.flags <==> summary.event.None?)
    && forall f :: f in summary.flags ==>
         f == MissingUnderlyingPrice || f == MissingCallContracts || f == MissingPutContracts || f == MissingEventTimestamp
  }

  /** The later of the two positive underlying times. */
  ghost predicate UnderlyingEventOf(py: Python, payload: Fields, event: Option<real>) {
    var underlying := Get(payload, "underlying");
    if !underlying.Object? then event.None?
    else
      var o := underlying.fields;
      if event.None? then MillisOf(py, o, "quoteTime").None? && MillisOf(py, o, "tradeTime").None?
      else
        && (IsInstant(py, o, "quoteTime", event.value) || IsInstant(py, o, "tradeTime", event.value))
        && NotAfter(py, o, "quoteTime", event.value) && NotAfter(py, o, "tradeTime", event.value)
  }

  predicate IsInstant(py: Python, o: Fields, name: string, at: real) {
    MillisOf(py, o, name).Some? && py.toInstant(MillisOf(py, o, name).value) == Is(at)
  }

  predicate NotAfter(py: Python, o: Fields, name: string, at: real) {
    MillisOf(py, o, name).Some? && py.toInstant(MillisOf(py, o, name).value).Is? ==>
      py.toInstant(MillisOf(py, o, name).value).value <= at
  }

  lemma EpochIsInstant(py: Python, o: Fields, name: string)
    ensures var r := EpochMillis(py, o, name);
            r.Ok? ==>
              && (r.value.None? <==> MillisOf(py, o, name).None?)
              && (r.value.Some? ==> IsInstant(py, o, name, r.value.value))
  {
  }

  lemma UnderlyingIsOf(py: Python, payload: Fields)
    ensures var r := UnderlyingEventTime(py, payload);
            r.Ok? ==> UnderlyingEventOf(py, payload, r.value)
  {
    hide EpochMillis, MillisOf;
    var underlying := Get(payload, "underlying");
    if underlying.Object? {
      EpochIsInstant(py, underlying.fields, "quoteTime");
      EpochIsInstant(py, underlying.fields, "tradeTime");
    }
  }

  /** As many calls and puts as there are rows listed, and as many strikes as they differ in. */
  ghost predicate CountsListed(py: Python, payload: Fields, expiration: string, summary: Summary) {
    var calls, puts := Listed(py, Get(payload, "callExpDateMap"), expiration), Listed(py, Get(payload, "putExpDateMap"), expiration);
    && calls.Ok? && puts.Ok?
    && summary.calls == |calls.value| && summary.puts == |puts.value|
    && summary.strikes == |(set row | row in calls.value :: row.strike) + (set row | row in puts.value :: row.strike)|
  }

  lemma StrikesAreThose(a: seq<Row>, b: seq<Row>)
    ensures Strikes(a + b) == (set row | row in a :: row.strike) + (set row | row in b :: row.strike)
  {
  }

  lemma CountsAreListed(py: Python, payload: Json, expiration: string)
    requires payload.Object?
    ensures var r := Summarized(py, payload, expiration);
            r.Ok? ==> CountsListed(py, payload.fields, expiration, r.value)
  {
    hide Listed, Strikes, ReadFloat, UnderlyingEventTime, Get, SummaryFlags;
    var calls := Listed(py, Get(payload.fields, "callExpDateMap"), expiration);
    var puts := Listed(py, Get(payload.fields, "putExpDateMap"), expiration);
    if calls.Ok? && puts.Ok? {
      StrikesAreThose(calls.value, puts.value);
    }
  }

  /** What the tolerant summary says: the payload's price, the later underlying time, the counts
      of the listed rows, and exactly the flags of what is missing. */
  lemma SummarySays(py: Python, payload: Json, expiration: string)
    ensures var r := Summarized(py, payload, expiration);
            r.Ok? ==>
              && payload.Object?
              && FloatOf(py, payload.fields, "underlyingPrice", r.value.underlyingPrice)
              && UnderlyingEventOf(py, payload.fields, r.value.event)
              && SummaryFlagsSay(r.value)
              && CountsListed(py, payload.fields, expiration, r.value)
  {
    hide Listed, Strikes, CountsListed, ReadFloat, FloatOf, UnderlyingEventTime, UnderlyingEventOf, Get;
    if payload.Object? {
      FloatIsOf(py, payload.fields, "underlyingPrice");
      UnderlyingIsOf(py, payload.fields);
      CountsAreListed(py, payload, expiration);
    }
  }

  lemma DeliveredChainSays(py: Python, symbol: string, payload: Json, expiration: string, at: real, staleAfter: real)
    ensures var r := Normalized(py, symbol, payload, expiration, at, staleAfter);
            r.Ok? ==> payload.Object? && ChainSays(py, symbol, payload.fields, expiration, at, r.value)
  {
    hide Summarized, Rows, NormalizedRows, Get, FieldsComeFrom, ContractSays, Assembled, ChainSays, FloatOf, UnderlyingEventOf, SummaryFlagsSay, ValidChain;
    SummarySays(py, payload, expiration);
    ChainDeliversItsRows(py, symbol, payload, expiration, at, staleAfter);
    var r := Normalized(py, symbol, payload, expiration, at, staleAfter);
    if r.Ok? {
      SummaryNeedsObject(py, payload, expiration);
      var calls := Rows(py, Get(payload.fields, "callExpDateMap"), expiration).value;
      var puts := Rows(py, Get(payload.fields, "putExpDateMap"), expiration).value;
      var contracts := NormalizedRows(py, calls, Call, at, staleAfter).value + NormalizedRows(py, puts, Put, at, staleAfter).value;
      var summary := Summarized(py, payload, expiration).value;
      AssembledKeepsContracts(symbol, expiration, summary, contracts, at);
      NonemptyChain(r.value);
      AssembledSays(py, symbol, payload.fields, expiration, summary, contracts, at, staleAfter);
    }
  }

  lemma NonemptyChain(chain: OptionChain)
    requires ValidChain(chain)
    ensures 1 <= |chain.contracts| <= 5000
  {
  }
}
