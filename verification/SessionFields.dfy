/** Which bars a session holds and what it says about itself, told on the candles of the
    response and on the dates alone. */
module SessionFields {
  import opened Common
  import opened Payloads
  import opened Freshness
  import opened ChainMetadata
  import opened MarketCalendar
  import opened OptionChainFields
  import opened SessionHistories
  import opened SessionCaches

  predicate GivesFloat(py: Python, o: Fields, name: string, x: Float) {
    !Get(o, name).Null? && py.toFloat(Get(o, name)) == Is(x)
  }

  predicate GivesInt(py: Python, o: Fields, name: string, i: int) {
    !Get(o, name).Null? && py.toInt(Get(o, name)) == Is(i)
  }

  /** The candle has a positive, representable time; each price and the volume come from the
      field of their own name. */
  predicate Tells(py: Python, candle: Json, bar: Bar) {
    && candle.Object?
    && var o := candle.fields;
    && HasInt(py, o, "datetime") && py.toInt(Get(o, "datetime")).value > 0
    && py.toInstant(py.toInt(Get(o, "datetime")).value) == Is(bar.timestamp)
    && GivesFloat(py, o, "open", bar.open) && GivesFloat(py, o, "high", bar.high)
    && GivesFloat(py, o, "low", bar.low) && GivesFloat(py, o, "close", bar.close)
    && GivesInt(py, o, "volume", bar.volume) && bar.volume >= 0
  }

  predicate HasInt(py: Python, o: Fields, name: string) {
    !Get(o, name).Null? && py.toInt(Get(o, name)).Is?
  }

  predicate HasFloat(py: Python, o: Fields, name: string) {
    !Get(o, name).Null? && py.toFloat(Get(o, name)).Is?
  }

  predicate FloatOverflows(py: Python, o: Fields, name: string) {
    !Get(o, name).Null? && py.toFloat(Get(o, name)).Overflows?
  }

  /** The time of an otherwise readable candle is beyond what can be represented. */
  predicate InstantOverflows(py: Python, o: Fields) {
    && HasInt(py, o, "datetime") && py.toInt(Get(o, "datetime")).value > 0
    && py.toInstant(py.toInt(Get(o, "datetime")).value).Overflows?
    && HasFloat(py, o, "open") && HasFloat(py, o, "high") && HasFloat(py, o, "low") && HasFloat(py, o, "close")
    && HasInt(py, o, "volume")
  }

  /** A conversion of the candle fails in a way the reader does not handle. */
  predicate Breaks(py: Python, candle: Json) {
    && candle.Object?
    && var o := candle.fields;
    || TimeOverflows(py, o, "datetime") || TimeOverflows(py, o, "volume")
    || FloatOverflows(py, o, "open") || FloatOverflows(py, o, "high")
    || FloatOverflows(py, o, "low") || FloatOverflows(py, o, "close")
    || InstantOverflows(py, o)
  }

  lemma FloatGiven(py: Python, o: Fields, name: string)
    ensures var r := ReadFloat(py, o, name);
            && (r.Raises? <==> FloatOverflows(py, o, name))
            && (r.Ok? && r.value.Some? <==> HasFloat(py, o, name))
            && (forall x :: r == Ok(Some(x)) <==> GivesFloat(py, o, name, x))
  {
  }

  lemma IntGiven(py: Python, o: Fields, name: string)
    ensures var r := ReadInt(py, o, name);
            && (r.Raises? <==> TimeOverflows(py, o, name))
            && (r.Ok? && r.value.Some? <==> HasInt(py, o, name))
            && (r.Ok? && r.value.Some? ==> r.value.value == py.toInt(Get(o, name)).value)
            && (forall i :: r == Ok(Some(i)) <==> GivesInt(py, o, name, i))
  {
  }

  /** The reader's bar is the candle's own, and it fails exactly where a conversion does. */
  lemma BarIff(py: Python, candle: Json)
    ensures BarFromCandle(py, candle).Raises? <==> Breaks(py, candle)
    ensures forall bar :: BarFromCandle(py, candle) == Ok(Some(bar)) <==> Tells(py, candle, bar)
  {
    hide ReadFloat, ReadInt, Get;
    if candle.Object? {
      var o := candle.fields;
      IntGiven(py, o, "datetime");
      IntGiven(py, o, "volume");
      FloatGiven(py, o, "open");
      FloatGiven(py, o, "high");
      FloatGiven(py, o, "low");
      FloatGiven(py, o, "close");
    }
  }

  // ---------------------------------------------------------------------------------------
  // One session.
  // ---------------------------------------------------------------------------------------

  /** From half past nine until the day's end is regular; the rest of a trading day extended. */
  ghost predicate LiesIn(py: Python, bar: Bar, date: int, session: Session) {
    && Trades(date)
    && py.eastern(bar.timestamp).day == date
    && (session == Regular <==> 570.0 <= py.eastern(bar.timestamp).minute < ClosingMinute(date) as real)
  }

  lemma BelongsIff(py: Python, bar: Bar, date: int, session: Session)
    requires date >= 1
    ensures Belongs(py, bar, date, RegularSessionEnd(date), session) <==> LiesIn(py, bar, date, session)
  {
    hide Trades, IsShort, RegularSessionEnd;
    SessionEndsByDate(date);
  }

  /** Bar `k` is what candle `from[k]` tells, in the order of the candles, and no candle that
      tells of a bar of this session is left out. */
  ghost predicate Selects(py: Python, candles: seq<Json>, from: seq<nat>, bars: seq<Bar>, date: int, session: Session) {
    && |from| == |bars| && Ascending(from)
    && (forall k :: 0 <= k < |from| ==>
          from[k] < |candles| && Tells(py, candles[from[k]], bars[k]) && LiesIn(py, bars[k], date, session))
    && (forall i: nat, bar :: i < |candles| && Tells(py, candles[i], bar) && LiesIn(py, bar, date, session) ==> i in from)
  }

  lemma SelectsNoMore(py: Python, candles: seq<Json>, from: seq<nat>, bars: seq<Bar>, date: int, session: Session, candle: Json)
    requires Selects(py, candles, from, bars, date, session)
    requires forall bar :: Tells(py, candle, bar) ==> !LiesIn(py, bar, date, session)
    ensures Selects(py, candles + [candle], from, bars, date, session)
  {
    hide Tells, LiesIn;
  }

  lemma SelectsOneMore(py: Python, candles: seq<Json>, from: seq<nat>, bars: seq<Bar>, date: int, session: Session, candle: Json, bar: Bar)
    requires Selects(py, candles, from, bars, date, session)
    requires Tells(py, candle, bar) && LiesIn(py, bar, date, session)
    ensures Selects(py, candles + [candle], from + [|candles|], bars + [bar], date, session)
  {
    hide Tells, LiesIn;
  }

  lemma NothingSelected(py: Python, candles: seq<Json>, date: int, end: Option<int>, session: Session) returns (from: seq<nat>)
    requires candles == []
    ensures WellFormed(py, candles) == Ok([]) && Picked(py, [], date, end, session) == []
    ensures Selects(py, candles, from, [], date, session)
  {
    from := [];
  }

  lemma WellFormedGrows(py: Python, candles: seq<Json>, date: int, end: Option<int>, session: Session)
    requires candles != [] && WellFormed(py, candles).Ok?
    ensures var n := |candles| - 1;
            var front, bar := WellFormed(py, candles[..n]), BarFromCandle(py, candles[n]);
            && front.Ok? && bar.Ok?
            && Picked(py, WellFormed(py, candles).value, date, end, session)
               == Picked(py, front.value, date, end, session)
                  + if bar.value.Some? && Belongs(py, bar.value.value, date, end, session) then [bar.value.value] else []
  {
    hide BarFromCandle, Belongs;
    var n := |candles| - 1;
    var front, bar := WellFormed(py, candles[..n]).value, BarFromCandle(py, candles[n]).value;
    if bar.Some? {
      var all := front + [bar.value];
      assert all[..|all| - 1] == front;
    } else {
      assert front + [] == front;
    }
  }

  lemma SelectsLast(py: Python, candles: seq<Json>, was: seq<nat>, bars: seq<Bar>, date: int, session: Session, candle: Json) returns (from: seq<nat>)
    requires date >= 1 && BarFromCandle(py, candle).Ok? && Selects(py, candles, was, bars, date, session)
    ensures var bar := BarFromCandle(py, candle).value;
            var chosen := bar.Some? && Belongs(py, bar.value, date, RegularSessionEnd(date), session);
            Selects(py, candles + [candle], from, bars + if chosen then [bar.value] else [], date, session)
  {
    hide BarFromCandle, Belongs, RegularSessionEnd, Selects, Tells, LiesIn;
    BarIff(py, candle);
    var bar := BarFromCandle(py, candle).value;
    if bar.Some? {
      BelongsIff(py, bar.value, date, session);
    }
    if bar.Some? && Belongs(py, bar.value, date, RegularSessionEnd(date), session) {
      SelectsOneMore(py, candles, was, bars, date, session, candle, bar.value);
      from := was + [|candles|];
    } else {
      assert bars + [] == bars;
      SelectsNoMore(py, candles, was, bars, date, session, candle);
      from := was;
    }
  }

  lemma {:induction false} PickedAreSelected(py: Python, candles: seq<Json>, date: int, session: Session) returns (from: seq<nat>)
    requires date >= 1 && WellFormed(py, candles).Ok?
    ensures Selects(py, candles, from, Picked(py, WellFormed(py, candles).value, date, RegularSessionEnd(date), session), date, session)
  {
    hide BarFromCandle, Belongs, RegularSessionEnd, Selects, WellFormed, Picked;
    var end := RegularSessionEnd(date);
    if candles == [] {
      from := NothingSelected(py, candles, date, end, session);
    } else {
      var n := |candles| - 1;
      WellFormedGrows(py, candles, date, end, session);
      from := PickedAreSelected(py, candles[..n], date, session);
      from := SelectsLast(py, candles[..n], from, Picked(py, WellFormed(py, candles[..n]).value, date, end, session), date, session, candles[n]);
      assert candles[..n] + [candles[n]] == candles;
    }
  }

  /** No candle breaks the read, and those that tell of no bar are what was dropped. */
  lemma {:induction false} WellFormedIff(py: Python, candles: seq<Json>)
    ensures WellFormed(py, candles).Ok? <==> forall i :: 0 <= i < |candles| ==> !Breaks(py, candles[i])
    ensures WellFormed(py, candles).Ok? ==> |WellFormed(py, candles).value| <= |candles|
    ensures WellFormed(py, candles).Ok? ==>
              (|WellFormed(py, candles).value| == |candles| <==> forall i :: 0 <= i < |candles| ==> TellsABar(py, candles[i]))
  {
    hide BarFromCandle, Breaks, TellsABar;
    if candles != [] {
      var n := |candles| - 1;
      WellFormedIff(py, candles[..n]);
      BarIff(py, candles[n]);
      TellsOne(py, candles[n]);
      assert forall i :: 0 <= i < n ==> candles[..n][i] == candles[i];
    }
  }

  ghost predicate TellsABar(py: Python, candle: Json) {
    exists bar :: Tells(py, candle, bar)
  }

  lemma TellsOne(py: Python, candle: Json)
    ensures BarFromCandle(py, candle).Ok? && BarFromCandle(py, candle).value.Some? <==> TellsABar(py, candle)
  {
    hide BarFromCandle, Tells;
    BarIff(py, candle);
  }

  /** What a session says of itself: whose it is, how old its last bar is, and which of the
      five things its flags can say are so. */
  ghost predicate SessionSays(py: Python, h: SessionHistory, symbol: string, date: int, session: Session, candles: seq<Json>, at: real, staleAfter: real) {
    && h.symbol == symbol && h.date == date && h.session == session && h.receivedAt == at
    && h.event == (if h.candles == [] then None else Some(h.candles[|h.candles| - 1].timestamp))
    && IsAged(h.event, at, staleAfter, h.age, h.stale)
    && (MarketHoliday in h.flags <==> !Trades(date))
    && (EarlyClose in h.flags <==> Trades(date) && IsShort(date))
    && (MalformedBarsDropped in h.flags <==> exists i :: 0 <= i < |candles| && !TellsABar(py, candles[i]))
    && (NoBarsReturned in h.flags <==> h.candles == [])
    && (StaleFlag in h.flags <==> h.stale)
    && (forall flag :: flag in h.flags ==> flag in {MarketHoliday, EarlyClose, MalformedBarsDropped, NoBarsReturned, StaleFlag})
  }

  lemma DescriptionSays(py: Python, symbol: string, date: int, session: Session, candles: seq<Json>, malformed: bool, bars: seq<Bar>, at: real, staleAfter: real)
    requires date >= 1 && (malformed <==> exists i :: 0 <= i < |candles| && !TellsABar(py, candles[i]))
    ensures SessionSays(py, Described(symbol, date, session, RegularSessionEnd(date), malformed, bars, at, staleAfter),
                        symbol, date, session, candles, at, staleAfter)
  {
    hide RegularSessionEnd, TellsABar, Trades, IsShort, When, AgeSeconds, IsStale, IsAged;
    SessionEndsByDate(date);
    StaleExactlyBeyondTheThreshold(LastTime(bars), at, staleAfter);
  }

  /** A response is read unless a candle breaks it, and the session then holds exactly the bars
      its candles tell of that day and those hours. */
  lemma SessionHoldsItsCandles(py: Python, symbol: string, date: int, session: Session, payload: Json, at: real, staleAfter: real)
    requires date >= 1
    ensures var r := HistoryOf(py, symbol, date, session, payload, at, staleAfter);
            && (r.Ok? <==> payload.List? && forall i :: 0 <= i < |payload.items| ==> !Breaks(py, payload.items[i]))
            && (r.Ok? ==>
                  && (exists from :: Selects(py, payload.items, from, r.value.candles, date, session))
                  && SessionSays(py, r.value, symbol, date, session, payload.items, at, staleAfter))
  {
    hide WellFormed, Picked, RegularSessionEnd, Breaks, Selects, TellsABar, SessionSays, AgeSeconds, IsStale, When;
    if payload.List? {
      WellFormedIff(py, payload.items);
      if WellFormed(py, payload.items).Ok? {
        var bars := WellFormed(py, payload.items).value;
        var from := PickedAreSelected(py, payload.items, date, session);
        DescriptionSays(py, symbol, date, session, payload.items, |bars| < |payload.items|,
                        Picked(py, bars, date, RegularSessionEnd(date), session), at, staleAfter);
      }
    }
  }

  /** Only a session that is over, holds something and lost nothing may be stored. */
  lemma CompletedIff(py: Python, symbol: string, date: int, session: Session, payload: Json, at: real, staleAfter: real, now: real)
    requires date >= 1
    ensures var r := HistoryOf(py, symbol, date, session, payload, at, staleAfter);
            r.Ok? ==>
              (IsCompletedSession(py, r.value, now) <==>
                 && date < py.eastern(now).day
                 && (forall i :: 0 <= i < |payload.items| ==> TellsABar(py, payload.items[i]))
                 && (exists i, bar :: 0 <= i < |payload.items| && Tells(py, payload.items[i], bar) && LiesIn(py, bar, date, session)))
  {
    hide HistoryOf, TellsABar, Tells, LiesIn, Breaks;
    SessionHoldsItsCandles(py, symbol, date, session, payload, at, staleAfter);
    var r := HistoryOf(py, symbol, date, session, payload, at, staleAfter);
    if r.Ok? {
      var from :| Selects(py, payload.items, from, r.value.candles, date, session);
    }
  }
}
