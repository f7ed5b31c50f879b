/** A cached chain looked at later is the chain a fresh normalization would give now, and the
    strict chain agrees with the tolerant summary. */
module OptionChainLaws {
  import opened Common
  import opened Payloads
  import opened Freshness
  import opened ChainMetadata
  import opened OptionChains

  function RefreshedContract(c: Contract, at: real, staleAfter: real): Contract {
    var stale := IsStale(c.terms.event, at, staleAfter);
    c.(age := AgeSeconds(c.terms.event, at), stale := stale, flags := Refreshed(c.flags, stale))
  }

  function RefreshedContracts(contracts: seq<Contract>, at: real, staleAfter: real): (r: seq<Contract>)
    ensures |r| == |contracts|
    ensures forall k :: 0 <= k < |r| ==> r[k] == RefreshedContract(contracts[k], at, staleAfter)
  {
    seq(|contracts|, k requires 0 <= k < |contracts| => RefreshedContract(contracts[k], at, staleAfter))
  }

  function Reevaluated(chain: OptionChain, at: real, staleAfter: real): OptionChain {
    var contracts := RefreshedContracts(chain.contracts, at, staleAfter);
    var staleCount := CountStale(contracts);
    var stale := contracts == [] || staleCount == |contracts|;
    chain.(
      contracts := contracts,
      age := AgeSeconds(chain.event, at),
      stale := stale,
      flags := Dropping(chain.flags, {StaleFlag, StaleContractsPresent})
               + When(staleCount > 0 && !stale, StaleContractsPresent)
               + When(stale, StaleFlag))
  }

  // ---------------------------------------------------------------------------------------
  // A hit equals fresh work.
  // ---------------------------------------------------------------------------------------

  lemma RefreshingDatedTerms(terms: Terms, at: real, later: real, staleAfter: real)
    ensures RefreshedContract(Dated(terms, at, staleAfter), later, staleAfter) == Dated(terms, later, staleAfter)
  {
    var fixedFlags := When(terms.crossed, CrossedMarketNormalized) + When(terms.event.None?, MissingEventTimestamp);
    DroppingTail(fixedFlags, When(IsStale(terms.event, at, staleAfter), StaleFlag), {StaleFlag});
  }

  lemma {:induction false} RefreshingRows(py: Python, rows: seq<Row>, side: Side, at: real, later: real, staleAfter: real)
    ensures var was := NormalizedRows(py, rows, side, at, staleAfter);
            var now := NormalizedRows(py, rows, side, later, staleAfter);
            if was.Raises? then now.Raises? else now == Ok(RefreshedContracts(was.value, later, staleAfter))
  {
    if rows != [] {
      hide NormalizedContract, RefreshedContract;
      var front, row := rows[..|rows| - 1], rows[|rows| - 1];
      RefreshingRows(py, front, side, at, later, staleAfter);
      RefreshingRow(py, row, side, at, later, staleAfter);
      var before := NormalizedRows(py, front, side, at, staleAfter);
      var contract := NormalizedContract(py, row.contract, side, row.strike, at, staleAfter);
      if before.Ok? && contract.Ok? {
        RefreshingOneMore(before.value, contract.value, later, staleAfter);
      }
    }
  }

  lemma RefreshingRow(py: Python, row: Row, side: Side, at: real, later: real, staleAfter: real)
    ensures var was := NormalizedContract(py, row.contract, side, row.strike, at, staleAfter);
            var now := NormalizedContract(py, row.contract, side, row.strike, later, staleAfter);
            if was.Raises? then now.Raises? else now == Ok(RefreshedContract(was.value, later, staleAfter))
  {
    hide ReadTerms, Dated, RefreshedContract;
    var terms := ReadTerms(py, row.contract, side, row.strike);
    if terms.Ok? {
      RefreshingDatedTerms(terms.value, at, later, staleAfter);
    }
  }

  lemma RefreshingOneMore(contracts: seq<Contract>, c: Contract, at: real, staleAfter: real)
    ensures RefreshedContracts(contracts + [c], at, staleAfter)
         == RefreshedContracts(contracts, at, staleAfter) + [RefreshedContract(c, at, staleAfter)]
  {
  }

  lemma RefreshingKeepsTerms(contracts: seq<Contract>, at: real, staleAfter: real)
    ensures var r := RefreshedContracts(contracts, at, staleAfter);
            TermsOf(r) == TermsOf(contracts) && AnyCrossed(r) == AnyCrossed(contracts)
  {
    hide AgeSeconds, IsStale;
    var r := RefreshedContracts(contracts, at, staleAfter);
    assert forall k :: 0 <= k < |r| ==>
        (CrossedMarketNormalized in r[k].flags <==> CrossedMarketNormalized in contracts[k].flags);
  }

  lemma SummaryFlagsAreTimeless(py: Python, payload: Json, expiration: string)
    requires Summarized(py, payload, expiration).Ok?
    ensures var flags := Summarized(py, payload, expiration).value.flags;
            StaleFlag !in flags && StaleContractsPresent !in flags
  {
    hide Listed, Get, ReadFloat, UnderlyingEventTime;
  }

  lemma RefreshingAssembled(symbol: string, expiration: string, summary: Summary, contracts: seq<Contract>, at: real, later: real, staleAfter: real)
    requires StaleFlag !in summary.flags && StaleContractsPresent !in summary.flags
    ensures var was := Assembled(symbol, expiration, summary, contracts, at);
            var now := Assembled(symbol, expiration, summary, RefreshedContracts(contracts, later, staleAfter), later);
            && Reevaluated(was, later, staleAfter) == now.(receivedAt := at)
            && ValidChain(was) == ValidChain(now)
  {
    hide CountStale, StrikesOf, LatestEvent, CountSide, AllTimestamped, AnyCrossed, RefreshedContracts, AgeSeconds;
    hide TermsOf, HasBothSides, UniqueSymbols, Dropping, When;
    var refreshed := RefreshedContracts(contracts, later, staleAfter);
    RefreshingKeepsTerms(contracts, later, staleAfter);
    var staleCount := CountStale(contracts);
    var stale := contracts == [] || staleCount == |contracts|;
    StaleTailDrops(TimelessFlags(summary, contracts), staleCount > 0 && !stale, stale);
  }

  lemma StaleTailDrops(base: seq<Flag>, some: bool, all: bool)
    requires StaleFlag !in base && StaleContractsPresent !in base
    ensures Dropping(base + When(some, StaleContractsPresent) + When(all, StaleFlag), {StaleFlag, StaleContractsPresent}) == base
  {
    hide When;
    var tail := When(some, StaleContractsPresent) + When(all, StaleFlag);
    DroppingTail(base, tail, {StaleFlag, StaleContractsPresent});
    assert base + When(some, StaleContractsPresent) + When(all, StaleFlag) == base + tail;
  }

  lemma RefreshingBoth(a: seq<Contract>, b: seq<Contract>, at: real, staleAfter: real)
    ensures RefreshedContracts(a + b, at, staleAfter) == RefreshedContracts(a, at, staleAfter) + RefreshedContracts(b, at, staleAfter)
  {
  }

  /** Re-evaluating at `later` the chain normalized at `at` gives what normalizing the same
      payload at `later` gives, but for the time of receipt; and one fails exactly if the
      other does. */
  lemma HitEqualsFreshWork(py: Python, symbol: string, payload: Json, expiration: string, at: real, later: real, staleAfter: real)
    ensures var was := Normalized(py, symbol, payload, expiration, at, staleAfter);
            var now := Normalized(py, symbol, payload, expiration, later, staleAfter);
            && (was.Ok? <==> now.Ok?)
            && (was.Ok? ==> Reevaluated(was.value, later, staleAfter) == now.value.(receivedAt := at))
  {
    hide Summarized, Rows, NormalizedRows, ValidChain, Assembled, Reevaluated, RefreshedContracts;
    var summary := Summarized(py, payload, expiration);
    if summary.Ok? {
      SummaryNeedsObject(py, payload, expiration);
      SummaryFlagsAreTimeless(py, payload, expiration);
      var callRows := Rows(py, Get(payload.fields, "callExpDateMap"), expiration);
      var putRows := Rows(py, Get(payload.fields, "putExpDateMap"), expiration);
      if callRows.Ok? && putRows.Ok? {
        RefreshingRows(py, callRows.value, Call, at, later, staleAfter);
        RefreshingRows(py, putRows.value, Put, at, later, staleAfter);
        var calls := NormalizedRows(py, callRows.value, Call, at, staleAfter);
        var puts := NormalizedRows(py, putRows.value, Put, at, staleAfter);
        if calls.Ok? && puts.Ok? {
          RefreshingBoth(calls.value, puts.value, later, staleAfter);
          RefreshingAssembled(symbol, expiration, summary.value, calls.value + puts.value, at, later, staleAfter);
        }
      }
    }
  }

  /** Only the last look counts, for any chain at all. */
  lemma ReevaluationComposes(chain: OptionChain, first: real, last: real, staleAfter: real)
    ensures Reevaluated(Reevaluated(chain, first, staleAfter), last, staleAfter) == Reevaluated(chain, last, staleAfter)
  {
    hide CountStale, AgeSeconds;
    var once := RefreshedContracts(chain.contracts, first, staleAfter);
    forall k | 0 <= k < |once|
      ensures RefreshedContract(once[k], last, staleAfter) == RefreshedContract(chain.contracts[k], last, staleAfter)
    {
      var flags := chain.contracts[k].flags;
      DroppingTail(Dropping(flags, {StaleFlag}), When(once[k].stale, StaleFlag), {StaleFlag});
    }
    assert RefreshedContracts(once, last, staleAfter) == RefreshedContracts(chain.contracts, last, staleAfter);
    var staleCount := CountStale(once);
    var stale := once == [] || staleCount == |once|;
    StaleTailDrops(Dropping(chain.flags, {StaleFlag, StaleContractsPresent}), staleCount > 0 && !stale, stale);
  }

  // ---------------------------------------------------------------------------------------
  // What the aggregate says about the rows.
  // ---------------------------------------------------------------------------------------

  lemma {:induction false} StaleCountBounds(contracts: seq<Contract>)
    ensures CountStale(contracts) == 0 <==> forall c :: c in contracts ==> !c.stale
    ensures CountStale(contracts) == |contracts| <==> forall c :: c in contracts ==> c.stale
  {
    if contracts != [] {
      var front := contracts[..|contracts| - 1];
      StaleCountBounds(front);
      assert contracts == front + [contracts[|contracts| - 1]];
    }
  }

  lemma {:induction false} LatestEventIsLatest(terms: seq<Terms>)
    ensures var latest := LatestEvent(terms);
            && (latest.None? <==> forall t :: t in terms ==> t.event.None?)
            && (latest.Some? ==>
                  && (exists k :: 0 <= k < |terms| && terms[k].event == latest)
                  && forall t :: t in terms && t.event.Some? ==> t.event.value <= latest.value)
  {
    if terms != [] {
      var n := |terms| - 1;
      LatestEventIsLatest(terms[..n]);
      assert terms == terms[..n] + [terms[n]];
      if LatestEvent(terms) == LatestEvent(terms[..n]) && LatestEvent(terms).Some? {
        var k :| 0 <= k < n && terms[..n][k].event == LatestEvent(terms);
        assert terms[k].event == LatestEvent(terms);
      }
    }
  }

  /** However often it has been re-evaluated, a chain's age is that of its freshest contract,
      it is stale exactly if every contract is, and the two freshness flags say which of
      "all", "some" and "none" holds. */
  lemma AggregateFreshness(chain: OptionChain, at: real, staleAfter: real)
    requires chain.contracts != [] && chain.event == LatestEvent(TermsOf(chain.contracts))
    ensures var r := Reevaluated(chain, at, staleAfter);
            && (r.stale <==> forall c :: c in r.contracts ==> c.stale)
            && (StaleFlag in r.flags <==> r.stale)
            && (StaleContractsPresent in r.flags <==> !r.stale && exists c :: c in r.contracts && c.stale)
  {
    hide LatestEvent, RefreshedContracts, AgeSeconds, CountStale;
    StaleCountBounds(Reevaluated(chain, at, staleAfter).contracts);
  }

  lemma AggregateAge(chain: OptionChain, at: real, staleAfter: real)
    requires chain.event == LatestEvent(TermsOf(chain.contracts))
    ensures var r := Reevaluated(chain, at, staleAfter);
            && (r.age.None? <==> forall k :: 0 <= k < |r.contracts| ==> r.contracts[k].age.None?)
            && (r.age.Some? ==>
                  && (exists k :: 0 <= k < |r.contracts| && r.contracts[k].age == r.age)
                  && forall k :: 0 <= k < |r.contracts| && r.contracts[k].age.Some? ==>
                       r.age.value <= r.contracts[k].age.value)
  {
    hide LatestEvent, CountStale, Dropping, Refreshed;
    var terms := TermsOf(chain.contracts);
    LatestEventIsLatest(terms);
    var r := Reevaluated(chain, at, staleAfter);
    assert forall k :: 0 <= k < |terms| ==> terms[k] in terms && r.contracts[k].age == AgeSeconds(terms[k].event, at);
  }

  /** The two lemmas above speak of every chain the gateway delivers, cached or fresh. */
  lemma DeliveredChainsQualify(py: Python, symbol: string, payload: Json, expiration: string, at: real, later: real, staleAfter: real)
    ensures var r := Normalized(py, symbol, payload, expiration, at, staleAfter);
            r.Ok? ==>
              var hit := Reevaluated(r.value, later, staleAfter);
              && r.value.contracts != [] && r.value.event == LatestEvent(TermsOf(r.value.contracts))
              && hit.contracts != [] && hit.event == LatestEvent(TermsOf(hit.contracts))
  {
    hide Summarized, Rows, NormalizedRows, CountStale, CountSide, StrikesOf, UniqueSymbols, RefreshedContracts, TermsOf, LatestEvent;
    var r := Normalized(py, symbol, payload, expiration, at, staleAfter);
    if r.Ok? {
      RefreshingKeepsTerms(r.value.contracts, later, staleAfter);
    }
  }

  // ---------------------------------------------------------------------------------------
  // The strict and the tolerant reader agree.
  // ---------------------------------------------------------------------------------------

  lemma {:induction false} StrictStrikesAreListed(py: Python, strikes: Fields)
    requires StrictStrikes(py, strikes).Ok?
    ensures ListedStrikes(py, strikes) == StrictStrikes(py, strikes)
  {
    if strikes != [] {
      StrictStrikesAreListed(py, strikes[..|strikes| - 1]);
    }
  }

  lemma {:induction false} StrictEntriesAreListed(py: Python, entries: Fields, expiration: string)
    requires StrictEntries(py, entries, expiration).Ok?
    ensures ListedEntries(py, entries, expiration) == StrictEntries(py, entries, expiration)
  {
    if entries != [] {
      StrictEntriesAreListed(py, entries[..|entries| - 1], expiration);
      var (key, strikes) := entries[|entries| - 1];
      if IsFor(key, expiration) {
        StrictStrikesAreListed(py, strikes.fields);
      }
    }
  }

  /** Whatever the strict reader accepts, the tolerant reader finds row for row. */
  lemma StrictRowsAreListed(py: Python, expMap: Json, expiration: string)
    requires Rows(py, expMap, expiration).Ok?
    ensures Listed(py, expMap, expiration) == Rows(py, expMap, expiration)
  {
    if expMap.Object? {
      StrictEntriesAreListed(py, expMap.fields, expiration);
    }
  }

  /** Each contract comes from the row at its own position. */
  ghost predicate FromRows(py: Python, contracts: seq<Contract>, rows: seq<Row>, side: Side, at: real, staleAfter: real) {
    && |contracts| == |rows|
    && forall k :: 0 <= k < |rows| ==>
        && contracts[k].terms.side == side && contracts[k].terms.strike == rows[k].strike
        && NormalizedContract(py, rows[k].contract, side, rows[k].strike, at, staleAfter) == Ok(contracts[k])
  }

  lemma FromOneMoreRow(py: Python, contracts: seq<Contract>, c: Contract, rows: seq<Row>, side: Side, at: real, staleAfter: real)
    requires rows != [] && FromRows(py, contracts, rows[..|rows| - 1], side, at, staleAfter)
    requires var row := rows[|rows| - 1];
             NormalizedContract(py, row.contract, side, row.strike, at, staleAfter) == Ok(c)
    ensures FromRows(py, contracts + [c], rows, side, at, staleAfter)
  {
    hide NormalizedContract;
    var row := rows[|rows| - 1];
    ContractKeepsItsPlace(py, row.contract, side, row.strike, at, staleAfter);
    var n := |rows| - 1;
    assert forall k :: 0 <= k < n ==> rows[..n][k] == rows[k];
  }

  lemma {:induction false} RowByRow(py: Python, rows: seq<Row>, side: Side, at: real, staleAfter: real)
    requires NormalizedRows(py, rows, side, at, staleAfter).Ok?
    ensures FromRows(py, NormalizedRows(py, rows, side, at, staleAfter).value, rows, side, at, staleAfter)
  {
    if rows != [] {
      hide NormalizedContract, FromRows;
      var n := |rows| - 1;
      RowByRow(py, rows[..n], side, at, staleAfter);
      var c := NormalizedContract(py, rows[n].contract, side, rows[n].strike, at, staleAfter).value;
      FromOneMoreRow(py, NormalizedRows(py, rows[..n], side, at, staleAfter).value, c, rows, side, at, staleAfter);
    }
  }

  lemma ContractKeepsItsPlace(py: Python, contract: Json, side: Side, strike: Float, at: real, staleAfter: real)
    requires NormalizedContract(py, contract, side, strike, at, staleAfter).Ok?
    ensures var t := NormalizedContract(py, contract, side, strike, at, staleAfter).value.terms;
            t.side == side && t.strike == strike
  {
    hide ReadTerms;
    TermsKeepTheirPlace(py, contract, side, strike);
  }

  lemma {:induction false} CountOfOneSide(terms: seq<Terms>, side: Side)
    requires forall k :: 0 <= k < |terms| ==> terms[k].side == side
    ensures CountSide(terms, side) == |terms|
    ensures CountSide(terms, if side == Call then Put else Call) == 0
  {
    if terms != [] {
      CountOfOneSide(terms[..|terms| - 1], side);
    }
  }

  lemma StrikesRowByRow(contracts: seq<Contract>, rows: seq<Row>)
    requires |contracts| == |rows| && forall k :: 0 <= k < |rows| ==> contracts[k].terms.strike == rows[k].strike
    ensures StrikesOf(TermsOf(contracts)) == Strikes(rows)
  {
    var terms := TermsOf(contracts);
    forall strike | strike in Strikes(rows)
      ensures strike in StrikesOf(terms)
    {
      var k :| 0 <= k < |rows| && rows[k].strike == strike;
      assert terms[k] in terms;
    }
    forall strike | strike in StrikesOf(terms)
      ensures strike in Strikes(rows)
    {
      var k :| 0 <= k < |terms| && terms[k].strike == strike;
      assert rows[k] in rows;
    }
  }

  lemma TermsKeepTheirPlace(py: Python, contract: Json, side: Side, strike: Float)
    requires ReadTerms(py, contract, side, strike).Ok?
    ensures var t := ReadTerms(py, contract, side, strike).value;
            t.side == side && t.strike == strike
  {
    hide EventTime, ReadInt, InTheMoney, IsBlank, Get, Analytic, NonnegativeAnalytic, IntrinsicValue, ReadFloat, ValidTerms;
  }

  lemma {:induction false} CountSideOfBoth(a: seq<Terms>, b: seq<Terms>, side: Side)
    ensures CountSide(a + b, side) == CountSide(a, side) + CountSide(b, side)
  {
    if b == [] {
      assert a + b == a;
    } else {
      assert (a + b)[..|a + b| - 1] == a + b[..|b| - 1];
      CountSideOfBoth(a, b[..|b| - 1], side);
    }
  }

  /** An accepted chain holds one contract for every row of the payload, calls first, in the
      payload's order: nothing is truncated, dropped or repeated. */
  lemma NothingIsTruncated(py: Python, symbol: string, payload: Json, expiration: string, at: real, staleAfter: real)
    ensures var r := Normalized(py, symbol, payload, expiration, at, staleAfter);
            r.Ok? ==> payload.Object? && OneForEachRow(py, payload.fields, expiration, r.value.contracts, at, staleAfter)
  {
    hide Summarized, Rows, NormalizedRows, Assembled, NormalizedContract, CountSide, StrikesOf, Strikes, UniqueSymbols;
    if Normalized(py, symbol, payload, expiration, at, staleAfter).Ok? {
      SummaryNeedsObject(py, payload, expiration);
      var callRows := Rows(py, Get(payload.fields, "callExpDateMap"), expiration).value;
      var putRows := Rows(py, Get(payload.fields, "putExpDateMap"), expiration).value;
      RowByRow(py, callRows, Call, at, staleAfter);
      RowByRow(py, putRows, Put, at, staleAfter);
      var calls := NormalizedRows(py, callRows, Call, at, staleAfter).value;
      var puts := NormalizedRows(py, putRows, Put, at, staleAfter).value;
      AssembledKeepsContracts(symbol, expiration, Summarized(py, payload, expiration).value, calls + puts, at);
    }
  }

  /** Both sides have rows, and the contracts are theirs, one for one: calls, then puts. */
  ghost predicate OneForEachRow(py: Python, fields: Fields, expiration: string, contracts: seq<Contract>, at: real, staleAfter: real) {
    var calls, puts := Rows(py, Get(fields, "callExpDateMap"), expiration), Rows(py, Get(fields, "putExpDateMap"), expiration);
    && calls.Ok? && puts.Ok?
    && calls.value != [] && puts.value != []
    && |contracts| == |calls.value| + |puts.value| <= MAX_CONTRACTS
    && forall k :: 0 <= k < |contracts| ==>
         var side := if k < |calls.value| then Call else Put;
         var row := if k < |calls.value| then calls.value[k] else puts.value[k - |calls.value|];
         NormalizedContract(py, row.contract, side, row.strike, at, staleAfter) == Ok(contracts[k])
  }

  lemma AssembledKeepsContracts(symbol: string, expiration: string, summary: Summary, contracts: seq<Contract>, at: real)
    ensures Assembled(symbol, expiration, summary, contracts, at).contracts == contracts
  {
  }

  /** Whenever the strict reader accepts a payload, the tolerant one finds the same number of
      calls, puts and strikes, and neither reports a missing side. */
  lemma StrictAgreesWithTolerant(py: Python, symbol: string, payload: Json, expiration: string, at: real, staleAfter: real)
    ensures var r := Normalized(py, symbol, payload, expiration, at, staleAfter);
            var summary := Summarized(py, payload, expiration);
            r.Ok? ==>
              && summary.Ok?
              && r.value.calls == summary.value.calls > 0
              && r.value.puts == summary.value.puts > 0
              && r.value.strikes == summary.value.strikes
              && r.value.underlyingPrice == summary.value.underlyingPrice
              && MissingCallContracts !in summary.value.flags && MissingPutContracts !in summary.value.flags
              && MissingCallContracts !in r.value.flags && MissingPutContracts !in r.value.flags
  {
    hide Rows, Listed, NormalizedRows, NormalizedContract, Strikes, UnderlyingEventTime, ReadFloat, Get, Assembled, CountSide, StrikesOf, UniqueSymbols, HasBothSides, TermsOf;
    if Normalized(py, symbol, payload, expiration, at, staleAfter).Ok? {
      NothingIsTruncated(py, symbol, payload, expiration, at, staleAfter);
      var callMap, putMap := Get(payload.fields, "callExpDateMap"), Get(payload.fields, "putExpDateMap");
      StrictRowsAreListed(py, callMap, expiration);
      StrictRowsAreListed(py, putMap, expiration);
      var callRows, putRows := Rows(py, callMap, expiration).value, Rows(py, putMap, expiration).value;
      BothSidesCount(py, callRows, putRows, at, staleAfter);
      AssembledCounts(symbol, expiration, Summarized(py, payload, expiration).value,
                      NormalizedRows(py, callRows, Call, at, staleAfter).value + NormalizedRows(py, putRows, Put, at, staleAfter).value, at);
    }
  }

  lemma AssembledCounts(symbol: string, expiration: string, summary: Summary, contracts: seq<Contract>, at: real)
    ensures var chain := Assembled(symbol, expiration, summary, contracts, at);
            var terms := TermsOf(contracts);
            && chain.underlyingPrice == summary.underlyingPrice
            && chain.calls == CountSide(terms, Call) && chain.puts == CountSide(terms, Put)
            && chain.strikes == |StrikesOf(terms)|
            && (MissingCallContracts !in summary.flags ==> MissingCallContracts !in chain.flags)
            && (MissingPutContracts !in summary.flags ==> MissingPutContracts !in chain.flags)
  {
    hide CountSide, StrikesOf, LatestEvent, CountStale, TermsOf, AllTimestamped, AnyCrossed, AgeSeconds;
  }

  lemma BothSidesCount(py: Python, callRows: seq<Row>, putRows: seq<Row>, at: real, staleAfter: real)
    requires NormalizedRows(py, callRows, Call, at, staleAfter).Ok? && NormalizedRows(py, putRows, Put, at, staleAfter).Ok?
    ensures var terms := TermsOf(NormalizedRows(py, callRows, Call, at, staleAfter).value
                                 + NormalizedRows(py, putRows, Put, at, staleAfter).value);
            && CountSide(terms, Call) == |callRows| && CountSide(terms, Put) == |putRows|
            && StrikesOf(terms) == Strikes(callRows + putRows)
  {
    hide NormalizedRows, NormalizedContract, CountSide, StrikesOf, Strikes;
    RowByRow(py, callRows, Call, at, staleAfter);
    RowByRow(py, putRows, Put, at, staleAfter);
    var calls := NormalizedRows(py, callRows, Call, at, staleAfter).value;
    var puts := NormalizedRows(py, putRows, Put, at, staleAfter).value;
    assert TermsOf(calls + puts) == TermsOf(calls) + TermsOf(puts);
    CountSideOfBoth(TermsOf(calls), TermsOf(puts), Call);
    CountSideOfBoth(TermsOf(calls), TermsOf(puts), Put);
    CountOfOneSide(TermsOf(calls), Call);
    CountOfOneSide(TermsOf(puts), Put);
    StrikesRowByRow(calls + puts, callRows + putRows);
  }
}
