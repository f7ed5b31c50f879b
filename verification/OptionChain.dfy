/** The strict normalization of one expiration's chain: every contract, or an error. */
module OptionChains {
  import opened Common
  import opened Payloads
  import opened Freshness
  import opened ChainMetadata

  const MAX_CONTRACTS := 5000

  datatype Side = Call | Put

  // ---------------------------------------------------------------------------------------
  // One contract.
  // ---------------------------------------------------------------------------------------

  /** Everything about a contract that does not depend on the time it is looked at. */
  datatype Terms = Terms(
    symbol: string, side: Side, strike: Float,
    bid: Option<Float>, ask: Option<Float>, crossed: bool,
    mark: Option<Float>, last: Option<Float>,
    totalVolume: Option<int>, openInterest: Option<int>, bidSize: Option<int>, askSize: Option<int>,
    daysToExpiration: Option<int>,
    volatility: Option<Float>, delta: Option<Float>, gamma: Option<Float>, theta: Option<Float>,
    vega: Option<Float>, rho: Option<Float>, multiplier: Option<Float>,
    intrinsicValue: Option<Float>, timeValue: Option<Float>, theoreticalValue: Option<Float>,
    inTheMoney: Option<bool>,
    event: Option<real>
  )

  datatype Contract = Contract(terms: Terms, age: Option<real>, stale: bool, flags: seq<Flag>)

  function Positive(v: Option<int>): seq<int> {
    if v.Some? && v.value > 0 then [v.value] else []
  }

  function Greatest(values: seq<int>): (r: int)
    requires values != []
    ensures r in values && forall v :: v in values ==> v <= r
  {
    if |values| == 1 then values[0]
    else
      var rest := Greatest(values[1..]);
      assert values == [values[0]] + values[1..];
      if values[0] > rest then values[0] else rest
  }

  function EventTime(py: Python, o: Fields): Result<Option<real>> {
    var quote :- ReadInt(py, o, "quoteTime");
    var trade :- ReadInt(py, o, "tradeTime");
    var quoteLong :- ReadInt(py, o, "quoteTimeInLong");
    var tradeLong :- ReadInt(py, o, "tradeTimeInLong");
    var candidates := Positive(quote) + Positive(trade) + Positive(quoteLong) + Positive(tradeLong);
    if candidates == [] then Ok(None)
    else
      var at := py.toInstant(Greatest(candidates));
      if at.Is? then Ok(Some(at.value)) else Raises
  }

  /** The provider writes -999 for a missing analytic. */
  function Analytic(py: Python, o: Fields, name: string): Result<Option<Float>> {
    var value :- ReadFloat(py, o, name);
    Ok(if value == Some(Finite(-999.0)) then None else value)
  }

  function NonnegativeAnalytic(py: Python, o: Fields, name: string): Result<Option<Float>> {
    var value :- Analytic(py, o, name);
    Ok(if value.Some? && IsNegative(value.value) then None else value)
  }

  function IntrinsicValue(py: Python, o: Fields): Result<Option<Float>> {
    var raw := Get(o, "intrinsicValue");
    if raw.Null? then Ok(None)
    else if !raw.Integer? && !raw.Number? then Raises
    else
      match py.toFloat(raw)
      case Is(Finite(v)) => Ok(Some(Finite(if v < 0.0 then 0.0 else v)))
      case _ => Raises
  }

  predicate IsCrossed(bid: Option<Float>, ask: Option<Float>) {
    && IsFinite(bid) && IsFinite(ask)
    && bid.value.v >= 0.0 && ask.value.v >= 0.0
    && bid.value.v > ask.value.v
  }

  function InTheMoney(py: Python, o: Fields): Result<Option<bool>> {
    var raw := Get(o, "inTheMoney");
    if raw.Null? then Ok(None)
    else
      match py.toBool(raw)
      case Is(b) => Ok(Some(b))
      case _ => Raises
  }

  predicate IsBlank(s: string) {
    forall c :: c in s ==> c == ' ' || '\t' <= c <= '\r' || '\U{1C}' <= c <= '\U{1F}'
  }

  predicate Counts(v: Option<int>) {
    v.None? || v.value >= 0
  }

  predicate Price(v: Option<Float>) {
    v.Some? && NonnegativeOrNone(v)
  }

  /** The field and model validators of the wire contract. */
  predicate ValidTerms(t: Terms) {
    && !IsBlank(t.symbol)
    && t.strike.Finite? && t.strike.v > 0.0
    && Price(t.bid) && Price(t.ask) && Price(t.mark) && NonnegativeOrNone(t.last)
    && Counts(t.totalVolume) && Counts(t.openInterest) && Counts(t.bidSize) && Counts(t.askSize)
    && Counts(t.daysToExpiration)
    && FiniteOrNone(t.volatility) && FiniteOrNone(t.delta) && FiniteOrNone(t.gamma)
    && FiniteOrNone(t.theta) && FiniteOrNone(t.vega) && FiniteOrNone(t.rho)
    && FiniteOrNone(t.multiplier) && FiniteOrNone(t.theoreticalValue)
    && NonnegativeOrNone(t.intrinsicValue) && NonnegativeOrNone(t.timeValue)
    && t.bid.value.v <= t.ask.value.v
  }

  function ReadTerms(py: Python, contract: Json, side: Side, strike: Float): Result<Terms> {
    if !contract.Object? then Raises
    else
      var o := contract.fields;
      var event :- EventTime(py, o);
      var bid :- ReadFloat(py, o, "bid");
      var ask :- ReadFloat(py, o, "ask");
      var mark :- ReadFloat(py, o, "mark");
      var last :- ReadFloat(py, o, "last");
      var totalVolume :- ReadInt(py, o, "totalVolume");
      var openInterest :- ReadInt(py, o, "openInterest");
      var volatility :- Analytic(py, o, "volatility");
      var delta :- Analytic(py, o, "delta");
      var gamma :- Analytic(py, o, "gamma");
      var theta :- Analytic(py, o, "theta");
      var vega :- Analytic(py, o, "vega");
      var bidSize :- ReadInt(py, o, "bidSize");
      var askSize :- ReadInt(py, o, "askSize");
      var rho :- Analytic(py, o, "rho");
      var intrinsicValue :- IntrinsicValue(py, o);
      var timeValue :- NonnegativeAnalytic(py, o, "timeValue");
      var inTheMoney :- InTheMoney(py, o);
      var daysToExpiration :- ReadInt(py, o, "daysToExpiration");
      var multiplier :- ReadFloat(py, o, "multiplier");
      var theoreticalValue :- NonnegativeAnalytic(py, o, "theoreticalOptionValue");
      var symbol := Get(o, "symbol");
      if !symbol.Text? then Raises
      else
        var crossed := IsCrossed(bid, ask);
        var terms := Terms(
          symbol.s, side, strike,
          if crossed then ask else bid, if crossed then bid else ask, crossed,
          mark, last, totalVolume, openInterest, bidSize, askSize, daysToExpiration,
          volatility, delta, gamma, theta, vega, rho, multiplier,
          intrinsicValue, timeValue, theoreticalValue, inTheMoney, event);
        if ValidTerms(terms) then Ok(terms) else Raises
  }

  function Dated(terms: Terms, at: real, staleAfter: real): Contract {
    var stale := IsStale(terms.event, at, staleAfter);
    Contract(
      terms, AgeSeconds(terms.event, at), stale,
      When(terms.crossed, CrossedMarketNormalized)
      + When(terms.event.None?, MissingEventTimestamp)
      + When(stale, StaleFlag))
  }

  function NormalizedContract(py: Python, contract: Json, side: Side, strike: Float, at: real, staleAfter: real): Result<Contract> {
    var terms :- ReadTerms(py, contract, side, strike);
    Ok(Dated(terms, at, staleAfter))
  }

  /** What a delivered contract says about the raw one: the same two prices in order, whichever
      way round they came, and no negative or missing-marker analytic. */
  lemma TermsSayWhatTheContractSays(py: Python, contract: Json, side: Side, strike: Float)
    requires ReadTerms(py, contract, side, strike).Ok?
    ensures var t := ReadTerms(py, contract, side, strike).value;
            var o := contract.fields;
            var bid, ask := ReadFloat(py, o, "bid").value, ReadFloat(py, o, "ask").value;
            && IsFinite(bid) && IsFinite(ask) && IsFinite(t.bid) && IsFinite(t.ask)
            && 0.0 <= t.bid.value.v <= t.ask.value.v
            && multiset{t.bid.value.v, t.ask.value.v} == multiset{bid.value.v, ask.value.v}
            && (t.crossed <==> bid.value.v > ask.value.v)
            && t.mark == ReadFloat(py, o, "mark").value
            && (t.intrinsicValue.None? <==> Get(o, "intrinsicValue").Null?)
            && (t.intrinsicValue.Some? ==>
                  var raw := py.toFloat(Get(o, "intrinsicValue"));
                  raw.Is? && raw.value.Finite? && t.intrinsicValue == Some(Finite(Max(0.0, raw.value.v))))
            && (t.timeValue.Some? ==> t.timeValue == ReadFloat(py, o, "timeValue").value)
            && (t.timeValue.None? <==>
                  var raw := ReadFloat(py, o, "timeValue").value;
                  raw.None? || IsNegative(raw.value))
  {
    hide EventTime, ReadInt, InTheMoney, IsBlank, Get;
  }

  // ---------------------------------------------------------------------------------------
  // The rows of one side, failing on any unexpected shape.
  // ---------------------------------------------------------------------------------------

  function StrictStrikes(py: Python, strikes: Fields): Result<seq<Row>> {
    if strikes == [] then Ok([])
    else
      var before :- StrictStrikes(py, strikes[..|strikes| - 1]);
      var (key, options) := strikes[|strikes| - 1];
      var strike := py.toFloat(key);
      if !strike.Is? || !options.List? || !AllObjects(options.items) then Raises
      else Ok(before + RowsAt(strike.value, options.items))
  }

  predicate AllObjects(items: seq<Json>) {
    forall item :: item in items ==> item.Object?
  }

  function StrictEntries(py: Python, entries: Fields, expiration: string): Result<seq<Row>> {
    if entries == [] then Ok([])
    else
      var before :- StrictEntries(py, entries[..|entries| - 1], expiration);
      var (key, strikes) := entries[|entries| - 1];
      if !key.Text? then Raises
      else if !ContainsText(key.s, expiration) then Ok(before)
      else if !strikes.Object? then Raises
      else
        var more :- StrictStrikes(py, strikes.fields);
        Ok(before + more)
  }

  function Rows(py: Python, expMap: Json, expiration: string): Result<seq<Row>> {
    if expMap.Null? then Ok([])
    else if !expMap.Object? then Raises
    else StrictEntries(py, expMap.fields, expiration)
  }

  lemma {:induction false} StrictStrikesPersist(py: Python, strikes: Fields, i: nat)
    requires i <= |strikes| && StrictStrikes(py, strikes[..i]).Raises?
    ensures StrictStrikes(py, strikes).Raises?
    decreases |strikes|
  {
    if i == |strikes| {
      assert strikes[..i] == strikes;
    } else {
      assert strikes[..|strikes| - 1][..i] == strikes[..i];
      StrictStrikesPersist(py, strikes[..|strikes| - 1], i);
    }
  }

  lemma {:induction false} StrictEntriesPersist(py: Python, entries: Fields, expiration: string, i: nat)
    requires i <= |entries| && StrictEntries(py, entries[..i], expiration).Raises?
    ensures StrictEntries(py, entries, expiration).Raises?
    decreases |entries|
  {
    if i == |entries| {
      assert entries[..i] == entries;
    } else {
      assert entries[..|entries| - 1][..i] == entries[..i];
      StrictEntriesPersist(py, entries[..|entries| - 1], expiration, i);
    }
  }

  method StrikeOptions(py: Python, strikes: Fields) returns (r: Result<seq<Row>>)
    ensures r == StrictStrikes(py, strikes)
  {
    var rows := [];
    for i := 0 to |strikes|
      invariant StrictStrikes(py, strikes[..i]) == Ok(rows)
    {
      assert strikes[..i + 1][..i] == strikes[..i];
      var (key, options) := strikes[i];
      var strike := py.toFloat(key);
      if !strike.Is? || !options.List? {
        StrictStrikesPersist(py, strikes, i + 1);
        return Raises;
      }
      ghost var before := rows;
      for j := 0 to |options.items|
        invariant rows == before + RowsAt(strike.value, options.items)[..j]
        invariant AllObjects(options.items[..j])
      {
        if !options.items[j].Object? {
          StrictStrikesPersist(py, strikes, i + 1);
          return Raises;
        }
        rows := rows + [Row(strike.value, options.items[j])];
      }
      var all := RowsAt(strike.value, options.items);
      assert options.items[..|options.items|] == options.items && all[..|options.items|] == all;
    }
    assert strikes[..|strikes|] == strikes;
    r := Ok(rows);
  }

  method ExpirationOptions(py: Python, expMap: Json, expiration: string) returns (r: Result<seq<Row>>)
    ensures r == Rows(py, expMap, expiration)
  {
    if expMap.Null? {
      return Ok([]);
    }
    if !expMap.Object? {
      return Raises;
    }
    var entries := expMap.fields;
    var rows := [];
    for i := 0 to |entries|
      invariant StrictEntries(py, entries[..i], expiration) == Ok(rows)
    {
      assert entries[..i + 1][..i] == entries[..i];
      var (key, strikes) := entries[i];
      if !key.Text? {
        StrictEntriesPersist(py, entries, expiration, i + 1);
        return Raises;
      }
      if !ContainsText(key.s, expiration) {
        continue;
      }
      if !strikes.Object? {
        StrictEntriesPersist(py, entries, expiration, i + 1);
        return Raises;
      }
      var more := StrikeOptions(py, strikes.fields);
      if more.Raises? {
        StrictEntriesPersist(py, entries, expiration, i + 1);
        return Raises;
      }
      rows := rows + more.value;
    }
    assert entries[..|entries|] == entries;
    r := Ok(rows);
  }

  // ---------------------------------------------------------------------------------------
  // The whole chain.
  // ---------------------------------------------------------------------------------------

  datatype OptionChain = OptionChain(
    symbol: string,
    expiration: string,
    underlyingPrice: Option<Float>,
    calls: nat,
    puts: nat,
    strikes: nat,
    contracts: seq<Contract>,
    event: Option<real>,
    receivedAt: real,
    age: Option<real>,
    stale: bool,
    flags: seq<Flag>
  )

  function NormalizedRows(py: Python, rows: seq<Row>, side: Side, at: real, staleAfter: real): Result<seq<Contract>> {
    if rows == [] then Ok([])
    else
      var before :- NormalizedRows(py, rows[..|rows| - 1], side, at, staleAfter);
      var row := rows[|rows| - 1];
      var contract :- NormalizedContract(py, row.contract, side, row.strike, at, staleAfter);
      Ok(before + [contract])
  }

  function CountStale(contracts: seq<Contract>): (r: nat)
    ensures r <= |contracts|
  {
    if contracts == [] then 0
    else CountStale(contracts[..|contracts| - 1]) + if contracts[|contracts| - 1].stale then 1 else 0
  }

  function TermsOf(contracts: seq<Contract>): (r: seq<Terms>)
    ensures |r| == |contracts|
    ensures forall k :: 0 <= k < |r| ==> r[k] == contracts[k].terms
  {
    seq(|contracts|, k requires 0 <= k < |contracts| => contracts[k].terms)
  }

  function CountSide(terms: seq<Terms>, side: Side): (r: nat)
    ensures r <= |terms|
  {
    if terms == [] then 0
    else CountSide(terms[..|terms| - 1], side) + if terms[|terms| - 1].side == side then 1 else 0
  }

  function StrikesOf(terms: seq<Terms>): set<Float> {
    set t | t in terms :: t.strike
  }

  function LatestEvent(terms: seq<Terms>): Option<real> {
    if terms == [] then None
    else Later(LatestEvent(terms[..|terms| - 1]), terms[|terms| - 1].event)
  }

  predicate AllTimestamped(terms: seq<Terms>) {
    terms != [] && forall t :: t in terms ==> t.event.Some?
  }

  predicate AnyCrossed(contracts: seq<Contract>) {
    exists k :: 0 <= k < |contracts| && CrossedMarketNormalized in contracts[k].flags
  }

  predicate HasBothSides(terms: seq<Terms>) {
    (exists t :: t in terms && t.side == Call) && (exists t :: t in terms && t.side == Put)
  }

  predicate UniqueSymbols(terms: seq<Terms>) {
    forall i, j :: 0 <= i < j < |terms| ==> terms[i].symbol != terms[j].symbol
  }

  function Assembled(symbol: string, expiration: string, summary: Summary, contracts: seq<Contract>, at: real): OptionChain {
    var terms := TermsOf(contracts);
    var event := LatestEvent(terms);
    var staleCount := CountStale(contracts);
    var stale := contracts == [] || staleCount == |contracts|;
    OptionChain(
      symbol, expiration, summary.underlyingPrice,
      CountSide(terms, Call), CountSide(terms, Put), |StrikesOf(terms)|,
      contracts, event, at, AgeSeconds(event, at), stale,
      TimelessFlags(summary, contracts)
      + When(staleCount > 0 && !stale, StaleContractsPresent)
      + When(stale, StaleFlag))
  }

  function TimelessFlags(summary: Summary, contracts: seq<Contract>): seq<Flag> {
    Dropping(summary.flags, {MissingEventTimestamp})
    + When(!AllTimestamped(TermsOf(contracts)), MissingContractEventTimestamp)
    + When(AnyCrossed(contracts), CrossedMarketsNormalized)
  }

  /** The validators of the delivered chain. */
  predicate ValidChain(chain: OptionChain) {
    var terms := TermsOf(chain.contracts);
    && 1 <= |chain.contracts| <= MAX_CONTRACTS
    && HasBothSides(terms)
    && (chain.underlyingPrice.Some? ==> chain.underlyingPrice.value.Finite? && chain.underlyingPrice.value.v > 0.0)
    && chain.calls == CountSide(terms, Call)
    && chain.puts == CountSide(terms, Put)
    && chain.strikes == |StrikesOf(terms)|
    && UniqueSymbols(terms)
  }

  function Normalized(py: Python, symbol: string, payload: Json, expiration: string, at: real, staleAfter: real): Result<OptionChain> {
    var summary :- Summarized(py, payload, expiration);
    var callRows :- Rows(py, Get(payload.fields, "callExpDateMap"), expiration);
    var putRows :- Rows(py, Get(payload.fields, "putExpDateMap"), expiration);
    if |callRows| + |putRows| > MAX_CONTRACTS then Raises
    else
      var calls :- NormalizedRows(py, callRows, Call, at, staleAfter);
      var puts :- NormalizedRows(py, putRows, Put, at, staleAfter);
      var chain := Assembled(symbol, expiration, summary, calls + puts, at);
      if ValidChain(chain) then Ok(chain) else Raises
  }

  lemma {:induction false} RowsRaisingPersists(py: Python, rows: seq<Row>, side: Side, at: real, staleAfter: real, i: nat)
    requires i <= |rows| && NormalizedRows(py, rows[..i], side, at, staleAfter).Raises?
    ensures NormalizedRows(py, rows, side, at, staleAfter).Raises?
    decreases |rows|
  {
    if i == |rows| {
      assert rows[..i] == rows;
    } else {
      assert rows[..|rows| - 1][..i] == rows[..i];
      RowsRaisingPersists(py, rows[..|rows| - 1], side, at, staleAfter, i);
    }
  }

  /** The contracts of one side behind those already collected, refused as soon as the cap is hit. */
  method AppendSide(py: Python, rows: seq<Row>, side: Side, at: real, staleAfter: real, so: seq<Contract>) returns (r: Result<seq<Contract>>)
    ensures var side := NormalizedRows(py, rows, side, at, staleAfter);
            r == if side.Raises? || (rows != [] && |so| + |rows| > MAX_CONTRACTS) then Raises else Ok(so + side.value)
  {
    hide NormalizedContract;
    var contracts := so;
    for i := 0 to |rows|
      invariant i == 0 || |so| + i <= MAX_CONTRACTS
      invariant |contracts| == |so| + i
      invariant var side := NormalizedRows(py, rows[..i], side, at, staleAfter);
                side.Ok? && contracts == so + side.value
    {
      assert rows[..i + 1][..i] == rows[..i];
      if |contracts| >= MAX_CONTRACTS {
        return Raises;
      }
      var contract := NormalizedContract(py, rows[i].contract, side, rows[i].strike, at, staleAfter);
      if contract.Raises? {
        RowsRaisingPersists(py, rows, side, at, staleAfter, i + 1);
        return Raises;
      }
      contracts := contracts + [contract.value];
    }
    assert rows[..|rows|] == rows;
    r := Ok(contracts);
  }

  method NormalizeOptionChain(py: Python, symbol: string, payload: Json, expiration: string, at: real, staleAfter: real) returns (r: Result<OptionChain>)
    ensures r == Normalized(py, symbol, payload, expiration, at, staleAfter)
  {
    hide Summarized, Rows, NormalizedRows, ValidChain, Assembled;
    var summary :- ExtractChainMetadata(py, payload, expiration);
    assert payload.Object? by { SummaryNeedsObject(py, payload, expiration); }
    var callRows :- ExpirationOptions(py, Get(payload.fields, "callExpDateMap"), expiration);
    var calls := AppendSide(py, callRows, Call, at, staleAfter, []);
    if calls.Raises? {
      return Raises;
    }
    assert calls.value == NormalizedRows(py, callRows, Call, at, staleAfter).value;
    var putRows :- ExpirationOptions(py, Get(payload.fields, "putExpDateMap"), expiration);
    RowsKeepTheirNumber(py, callRows, Call, at, staleAfter);
    RowsKeepTheirNumber(py, putRows, Put, at, staleAfter);
    var contracts := AppendSide(py, putRows, Put, at, staleAfter, calls.value);
    if contracts.Raises? {
      return Raises;
    }
    var chain := Assembled(symbol, expiration, summary, contracts.value, at);
    r := if ValidChain(chain) then Ok(chain) else Raises;
  }

  lemma SummaryNeedsObject(py: Python, payload: Json, expiration: string)
    requires Summarized(py, payload, expiration).Ok?
    ensures payload.Object?
  {
  }

  lemma {:induction false} RowsKeepTheirNumber(py: Python, rows: seq<Row>, side: Side, at: real, staleAfter: real)
    ensures var r := NormalizedRows(py, rows, side, at, staleAfter);
            r.Ok? ==> |r.value| == |rows|
  {
    if rows != [] {
      RowsKeepTheirNumber(py, rows[..|rows| - 1], side, at, staleAfter);
    }
  }
}
