/** Which rows of a payload are listed, and exactly which payloads become a chain. */
module OptionChainAcceptance {
  import opened Common
  import opened Payloads
  import opened Freshness
  import opened ChainMetadata
  import opened OptionChains
  import opened OptionChainLaws
  import opened OptionChainFields

  // ---------------------------------------------------------------------------------------
  // Names and keys.
  // ---------------------------------------------------------------------------------------

  predicate OccursAt(part: string, text: string, i: int) {
    0 <= i <= |text| - |part| && text[i..i + |part|] == part
  }

  /** Somewhere in the text the part begins. */
  lemma {:induction false} ContainsIff(text: string, part: string)
    ensures ContainsText(text, part) <==> exists i :: OccursAt(part, text, i)
  {
    if |part| <= |text| {
      if text[..|part|] == part {
        assert OccursAt(part, text, 0);
      } else if text != [] {
        ContainsIff(text[1..], part);
        forall i | 0 <= i <= |text| - 1 - |part|
          ensures OccursAt(part, text[1..], i) <==> OccursAt(part, text, i + 1)
        {
          assert text[1..][i..i + |part|] == text[i + 1..i + 1 + |part|];
        }
        if i :| OccursAt(part, text, i) {
          assert i > 0;
          assert OccursAt(part, text[1..], i - 1);
        }
        if i :| OccursAt(part, text[1..], i) {
          assert OccursAt(part, text, i + 1);
        }
      }
    }
  }

  /** The key is a text in which the expiration occurs. */
  ghost predicate Names(key: Json, expiration: string) {
    key.Text? && exists i :: OccursAt(expiration, key.s, i)
  }

  lemma NamesIff(key: Json, expiration: string)
    ensures IsFor(key, expiration) <==> Names(key, expiration)
  {
    if key.Text? {
      ContainsIff(key.s, expiration);
    }
  }

  ghost predicate IsFirst(fields: Fields, name: string, i: nat) {
    i < |fields| && fields[i].0 == Text(name) && forall j :: 0 <= j < i ==> fields[j].0 != Text(name)
  }

  /** The first field of a name decides; without one the answer is null. */
  lemma {:induction false} GetIff(fields: Fields, name: string)
    ensures forall i: nat :: IsFirst(fields, name, i) ==> Get(fields, name) == fields[i].1
    ensures (forall i :: 0 <= i < |fields| ==> fields[i].0 != Text(name)) ==> Get(fields, name) == Null
  {
    forall i: nat | IsFirst(fields, name, i)
      ensures Get(fields, name) == fields[i].1
    {
      GetNth(fields, i, name);
    }
    if fields != [] {
      GetIff(fields[1..], name);
      assert forall i :: 0 <= i < |fields| - 1 ==> fields[1..][i] == fields[i + 1];
    }
  }

  // ---------------------------------------------------------------------------------------
  // The rows of one side.
  // ---------------------------------------------------------------------------------------

  /** An item of the list under a strike under an expiration. */
  datatype Place = Place(entry: nat, strike: nat, item: nat)

  predicate Precedes(p: Place, q: Place) {
    p.entry < q.entry || (p.entry == q.entry && (p.strike < q.strike || (p.strike == q.strike && p.item < q.item)))
  }

  ghost predicate InOrder(places: seq<Place>) {
    forall m, n :: 0 <= m < n < |places| ==> Precedes(places[m], places[n])
  }

  /** The row is the item there, under the number its strike's key reads as. */
  predicate SitsBelow(py: Python, strikes: Fields, p: Place, row: Row) {
    && p.strike < |strikes| && strikes[p.strike].1.List?
    && py.toFloat(strikes[p.strike].0) == Is(row.strike)
    && p.item < |strikes[p.strike].1.items|
    && strikes[p.strike].1.items[p.item] == row.contract
  }

  ghost predicate Sits(py: Python, entries: Fields, expiration: string, p: Place, row: Row) {
    && p.entry < |entries|
    && Names(entries[p.entry].0, expiration)
    && entries[p.entry].1.Object?
    && SitsBelow(py, entries[p.entry].1.fields, p, row)
  }

  ghost predicate ListsBelow(py: Python, entry: nat, strikes: Fields, places: seq<Place>, rows: seq<Row>) {
    && |places| == |rows| && InOrder(places)
    && (forall n :: 0 <= n < |rows| ==> places[n].entry == entry && SitsBelow(py, strikes, places[n], rows[n]))
    && (forall p: Place, row :: p.entry == entry && SitsBelow(py, strikes, p, row) ==> p in places)
  }

  /** Row `n` sits at the `n`-th place that holds one, in the payload's order. */
  ghost predicate Lists(py: Python, entries: Fields, expiration: string, places: seq<Place>, rows: seq<Row>) {
    && |places| == |rows| && InOrder(places)
    && (forall n :: 0 <= n < |rows| ==> Sits(py, entries, expiration, places[n], rows[n]))
    && (forall p: Place, row :: Sits(py, entries, expiration, p, row) ==> p in places)
  }

  function PlacesAt(entry: nat, strike: nat, count: nat): (r: seq<Place>)
    ensures |r| == count && forall k :: 0 <= k < count ==> r[k] == Place(entry, strike, k)
  {
    seq(count, k requires 0 <= k < count => Place(entry, strike, k))
  }

  lemma MoreBelow(py: Python, entry: nat, strikes: Fields, places: seq<Place>, rows: seq<Row>, key: Json, options: Json)
    requires ListsBelow(py, entry, strikes, places, rows)
    ensures var more := strikes + [(key, options)];
            if options.List? && py.toFloat(key).Is?
            then ListsBelow(py, entry, more, places + PlacesAt(entry, |strikes|, |options.items|), rows + RowsAt(py.toFloat(key).value, options.items))
            else ListsBelow(py, entry, more, places, rows)
  {
    var n := |strikes|;
    var more := strikes + [(key, options)];
    forall p: Place, row | p.entry == entry && p.strike < n
      ensures SitsBelow(py, more, p, row) <==> SitsBelow(py, strikes, p, row)
    {
    }
    if options.List? && py.toFloat(key).Is? {
      var here := PlacesAt(entry, n, |options.items|);
      forall p: Place, row | p.entry == entry && p.strike == n && SitsBelow(py, more, p, row)
        ensures p in here
      {
        assert here[p.item] == p;
      }
    }
  }

  lemma {:induction false} StrikesAreListed(py: Python, entry: nat, strikes: Fields) returns (places: seq<Place>)
    requires ListedStrikes(py, strikes).Ok?
    ensures ListsBelow(py, entry, strikes, places, ListedStrikes(py, strikes).value)
  {
    places := [];
    if strikes != [] {
      hide ListsBelow;
      var n := |strikes| - 1;
      var was := StrikesAreListed(py, entry, strikes[..n]);
      var (key, options) := strikes[n];
      MoreBelow(py, entry, strikes[..n], was, ListedStrikes(py, strikes[..n]).value, key, options);
      assert strikes[..n] + [(key, options)] == strikes;
      places := if options.List? && py.toFloat(key).Is? then was + PlacesAt(entry, n, |options.items|) else was;
    }
  }

  lemma MoreEntries(py: Python, entries: Fields, expiration: string, places: seq<Place>, rows: seq<Row>, entry: (Json, Json), below: seq<Place>, more: seq<Row>)
    requires Lists(py, entries, expiration, places, rows)
    requires if Names(entry.0, expiration) && entry.1.Object?
             then ListsBelow(py, |entries|, entry.1.fields, below, more) else below == [] && more == []
    ensures Lists(py, entries + [entry], expiration, places + below, rows + more)
  {
    hide SitsBelow, Names;
    var n := |entries|;
    forall p: Place, row | p.entry < n
      ensures Sits(py, entries + [entry], expiration, p, row) <==> Sits(py, entries, expiration, p, row)
    {
    }
  }

  lemma {:induction false} EntriesAreListed(py: Python, entries: Fields, expiration: string) returns (places: seq<Place>)
    requires ListedEntries(py, entries, expiration).Ok?
    ensures Lists(py, entries, expiration, places, ListedEntries(py, entries, expiration).value)
  {
    places := [];
    if entries != [] {
      hide Lists, ListsBelow, ListedStrikes, IsFor, Names;
      NamesIff(entries[|entries| - 1].0, expiration);
      var n := |entries| - 1;
      var was := EntriesAreListed(py, entries[..n], expiration);
      var (key, strikes) := entries[n];
      var rows := ListedEntries(py, entries[..n], expiration).value;
      assert entries[..n] + [entries[n]] == entries;
      if IsFor(key, expiration) && strikes.Object? {
        var below := StrikesAreListed(py, n, strikes.fields);
        MoreEntries(py, entries[..n], expiration, was, rows, entries[n], below, ListedStrikes(py, strikes.fields).value);
        places := was + below;
      } else {
        MoreEntries(py, entries[..n], expiration, was, rows, entries[n], [], []);
        assert was + [] == was && rows + [] == rows;
        places := was;
      }
    }
  }

  /** The tolerant reader lists exactly what sits somewhere in the map, in its order. */
  lemma ListedIsWhatSits(py: Python, expMap: Json, expiration: string)
    ensures var r := Listed(py, expMap, expiration);
            r.Ok? ==> if expMap.Object? then exists places :: Lists(py, expMap.fields, expiration, places, r.value) else r.value == []
  {
    hide Lists, ListedEntries;
    if expMap.Object? && ListedEntries(py, expMap.fields, expiration).Ok? {
      var places := EntriesAreListed(py, expMap.fields, expiration);
    }
  }

  // ---------------------------------------------------------------------------------------
  // What the strict reader accepts.
  // ---------------------------------------------------------------------------------------

  /** A strike that reads as a number, over a list of objects. */
  predicate IsStrictStrike(py: Python, field: (Json, Json)) {
    py.toFloat(field.0).Is? && field.1.List? && forall k :: 0 <= k < |field.1.items| ==> field.1.items[k].Object?
  }

  predicate AreStrictStrikes(py: Python, strikes: Fields) {
    forall j :: 0 <= j < |strikes| ==> IsStrictStrike(py, strikes[j])
  }

  /** A text; and where the expiration occurs in it, an object of such strikes. */
  ghost predicate IsStrictEntry(py: Python, entry: (Json, Json), expiration: string) {
    entry.0.Text? && (Names(entry.0, expiration) ==> entry.1.Object? && AreStrictStrikes(py, entry.1.fields))
  }

  ghost predicate IsStrictSide(py: Python, expMap: Json, expiration: string) {
    expMap.Null? || (expMap.Object? && forall i :: 0 <= i < |expMap.fields| ==> IsStrictEntry(py, expMap.fields[i], expiration))
  }

  lemma {:induction false} StrictStrikesIff(py: Python, strikes: Fields)
    ensures StrictStrikes(py, strikes).Ok? <==> AreStrictStrikes(py, strikes)
  {
    if strikes != [] {
      var n := |strikes| - 1;
      StrictStrikesIff(py, strikes[..n]);
      assert forall j :: 0 <= j < n ==> strikes[..n][j] == strikes[j];
      var options := strikes[n].1;
      assert options.List? ==> (AllObjects(options.items) <==> forall k :: 0 <= k < |options.items| ==> options.items[k].Object?);
    }
  }

  lemma {:induction false} StrictEntriesIff(py: Python, entries: Fields, expiration: string)
    ensures StrictEntries(py, entries, expiration).Ok? <==>
            forall i :: 0 <= i < |entries| ==> IsStrictEntry(py, entries[i], expiration)
  {
    if entries != [] {
      hide AreStrictStrikes, StrictStrikes, ContainsText, Names;
      NamesIff(entries[|entries| - 1].0, expiration);
      var n := |entries| - 1;
      StrictEntriesIff(py, entries[..n], expiration);
      assert forall i :: 0 <= i < n ==> entries[..n][i] == entries[i];
      if entries[n].1.Object? {
        StrictStrikesIff(py, entries[n].1.fields);
      }
    }
  }

  lemma RowsIff(py: Python, expMap: Json, expiration: string)
    ensures Rows(py, expMap, expiration).Ok? <==> IsStrictSide(py, expMap, expiration)
  {
    hide StrictEntries, IsStrictEntry;
    if expMap.Object? {
      StrictEntriesIff(py, expMap.fields, expiration);
    }
  }

  // ---------------------------------------------------------------------------------------
  // What the gateway accepts.
  // ---------------------------------------------------------------------------------------

  lemma {:induction false} RowsAcceptedIff(py: Python, rows: seq<Row>, side: Side, at: real, staleAfter: real)
    ensures NormalizedRows(py, rows, side, at, staleAfter).Ok? <==>
            forall k :: 0 <= k < |rows| ==> IsAcceptable(py, rows[k].contract, rows[k].strike)
  {
    hide NormalizedContract, IsAcceptable, FieldsComeFrom, ContractSays;
    if rows != [] {
      var n := |rows| - 1;
      RowsAcceptedIff(py, rows[..n], side, at, staleAfter);
      ContractComesFromItsRow(py, rows[n].contract, side, rows[n].strike, at, staleAfter);
      assert forall k :: 0 <= k < n ==> rows[..n][k] == rows[k];
    }
  }

  predicate HasPlausiblePrice(py: Python, payload: Fields) {
    var raw := Get(payload, "underlyingPrice");
    || raw.Null? || py.toFloat(raw) == Refused
    || (py.toFloat(raw).Is? && py.toFloat(raw).value.Finite? && py.toFloat(raw).value.v > 0.0)
  }

  predicate SymbolsDiffer(rows: seq<Row>) {
    forall i, j :: 0 <= i < j < |rows| && rows[i].contract.Object? && rows[j].contract.Object? ==>
      Get(rows[i].contract.fields, "symbol") != Get(rows[j].contract.fields, "symbol")
  }

  /** Both sides are listed strictly, neither is empty, together they are not too many, every row
      is acceptable, no symbol occurs twice, and a price, if there is one, is positive. */
  ghost predicate IsAcceptableChain(py: Python, payload: Fields, expiration: string) {
    && IsStrictSide(py, Get(payload, "callExpDateMap"), expiration)
    && IsStrictSide(py, Get(payload, "putExpDateMap"), expiration)
    && HasPlausiblePrice(py, payload)
    && var calls, puts := Rows(py, Get(payload, "callExpDateMap"), expiration), Rows(py, Get(payload, "putExpDateMap"), expiration);
       && calls.Ok? && puts.Ok?
       && calls.value != [] && puts.value != [] && |calls.value| + |puts.value| <= 5000
       && (forall k :: 0 <= k < |calls.value| ==> IsAcceptable(py, calls.value[k].contract, calls.value[k].strike))
       && (forall k :: 0 <= k < |puts.value| ==> IsAcceptable(py, puts.value[k].contract, puts.value[k].strike))
       && SymbolsDiffer(calls.value + puts.value)
  }

  /** The chain the rows of both sides make, if each of them makes a contract. */
  lemma ValidChainIff(py: Python, payload: Fields, symbol: string, expiration: string, summary: Summary,
                      calls: seq<Row>, puts: seq<Row>, at: real, staleAfter: real)
    requires |calls| + |puts| <= 5000
    requires NormalizedRows(py, calls, Call, at, staleAfter).Ok? && NormalizedRows(py, puts, Put, at, staleAfter).Ok?
    requires FloatOf(py, payload, "underlyingPrice", summary.underlyingPrice)
    requires !IsOversized(py, payload, "underlyingPrice")
    ensures var contracts := NormalizedRows(py, calls, Call, at, staleAfter).value + NormalizedRows(py, puts, Put, at, staleAfter).value;
            ValidChain(Assembled(symbol, expiration, summary, contracts, at)) <==>
              calls != [] && puts != [] && HasPlausiblePrice(py, payload) && SymbolsDiffer(calls + puts)
  {
    hide NormalizedRows, NormalizedContract, CountSide, StrikesOf, Get, TimelessFlags, LatestEvent, CountStale, AgeSeconds;
    var some, others := NormalizedRows(py, calls, Call, at, staleAfter).value, NormalizedRows(py, puts, Put, at, staleAfter).value;
    RowByRow(py, calls, Call, at, staleAfter);
    RowByRow(py, puts, Put, at, staleAfter);
    var terms := TermsOf(some + others);
    SidesIff(terms, |calls|);
    SymbolsIff(py, calls, puts, some, others, at, staleAfter);
  }

  lemma SidesIff(terms: seq<Terms>, calls: nat)
    requires calls <= |terms| && forall k :: 0 <= k < |terms| ==> terms[k].side == if k < calls then Call else Put
    ensures HasBothSides(terms) <==> 0 < calls < |terms|
  {
    if 0 < calls < |terms| {
      assert terms[0] in terms && terms[calls] in terms;
    }
  }

  lemma SymbolsIff(py: Python, calls: seq<Row>, puts: seq<Row>, some: seq<Contract>, others: seq<Contract>, at: real, staleAfter: real)
    requires FromRows(py, some, calls, Call, at, staleAfter) && FromRows(py, others, puts, Put, at, staleAfter)
    ensures UniqueSymbols(TermsOf(some + others)) <==> SymbolsDiffer(calls + puts)
  {
    hide NormalizedContract, Get, FieldsComeFrom, ContractSays, IsAcceptable;
    var rows, contracts := calls + puts, some + others;
    var terms := TermsOf(contracts);
    forall k | 0 <= k < |rows|
      ensures rows[k].contract.Object? && Get(rows[k].contract.fields, "symbol") == Text(terms[k].symbol)
    {
      var side := if k < |calls| then Call else Put;
      ContractComesFromItsRow(py, rows[k].contract, side, rows[k].strike, at, staleAfter);
      SymbolComesFrom(py, rows[k].contract.fields, side, rows[k].strike, terms[k]);
    }
  }

  lemma SymbolComesFrom(py: Python, o: Fields, side: Side, strike: Float, t: Terms)
    requires FieldsComeFrom(py, o, side, strike, t)
    ensures Get(o, "symbol") == Text(t.symbol)
  {
  }

  /** A payload becomes a chain exactly if its summary does not fail and both readers' demands
      are met; nothing else is refused. */
  lemma ChainAcceptedIff(py: Python, symbol: string, payload: Json, expiration: string, at: real, staleAfter: real)
    ensures Normalized(py, symbol, payload, expiration, at, staleAfter).Ok? <==>
            payload.Object? && Summarized(py, payload, expiration).Ok? && IsAcceptableChain(py, payload.fields, expiration)
  {
    hide Summarized, Rows, NormalizedRows, ValidChain, Assembled, Get, IsAcceptable, IsStrictSide, HasPlausiblePrice, SymbolsDiffer, FloatOf, UnderlyingEventOf;
    if Summarized(py, payload, expiration).Ok? {
      SummaryNeedsObject(py, payload, expiration);
      SummarySays(py, payload, expiration);
      PriceReads(py, payload, expiration);
      var callMap, putMap := Get(payload.fields, "callExpDateMap"), Get(payload.fields, "putExpDateMap");
      RowsIff(py, callMap, expiration);
      RowsIff(py, putMap, expiration);
      if Rows(py, callMap, expiration).Ok? && Rows(py, putMap, expiration).Ok? {
        var calls, puts := Rows(py, callMap, expiration).value, Rows(py, putMap, expiration).value;
        RowsAcceptedIff(py, calls, Call, at, staleAfter);
        RowsAcceptedIff(py, puts, Put, at, staleAfter);
        if |calls| + |puts| <= 5000 && NormalizedRows(py, calls, Call, at, staleAfter).Ok? && NormalizedRows(py, puts, Put, at, staleAfter).Ok? {
          ValidChainIff(py, payload.fields, symbol, expiration, Summarized(py, payload, expiration).value, calls, puts, at, staleAfter);
        }
      }
    }
  }

  lemma PriceReads(py: Python, payload: Json, expiration: string)
    requires payload.Object? && Summarized(py, payload, expiration).Ok?
    ensures !IsOversized(py, payload.fields, "underlyingPrice")
  {
    hide HasOversizedKey, HasBadEpoch, Summarized;
    SummaryFailsIff(py, payload, expiration);
  }
}
