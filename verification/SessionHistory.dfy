/** One calendar day's candles, split into the regular and the extended session. */
module SessionHistories {
  import opened Common
  import opened Payloads
  import opened Freshness
  import opened ChainMetadata
  import opened MarketCalendar

  datatype Session = Regular | Extended

  datatype Bar = Bar(timestamp: real, open: Float, high: Float, low: Float, close: Float, volume: int)

  datatype SessionHistory = SessionHistory(
    symbol: string,
    date: int,
    session: Session,
    candles: seq<Bar>,
    event: Option<real>,
    receivedAt: real,
    stale: bool,
    age: Option<real>,
    flags: seq<Flag>
  )

  /** A candle that is not well formed is `None`; the whole read fails only on a conversion
      error the reader does not handle. */
  function BarFromCandle(py: Python, candle: Json): Result<Option<Bar>> {
    if !candle.Object? then Ok(None)
    else
      var o := candle.fields;
      var millis :- ReadInt(py, o, "datetime");
      var open :- ReadFloat(py, o, "open");
      var high :- ReadFloat(py, o, "high");
      var low :- ReadFloat(py, o, "low");
      var close :- ReadFloat(py, o, "close");
      var volume :- ReadInt(py, o, "volume");
      if millis.None? || millis.value <= 0 then Ok(None)
      else if open.None? || high.None? || low.None? || close.None? || volume.None? then Ok(None)
      else
        match py.toInstant(millis.value)
        case Overflows => Raises
        case Refused => Ok(None)
        case Is(at) =>
          Ok(if volume.value < 0 then None
             else Some(Bar(at, open.value, high.value, low.value, close.value, volume.value)))
  }

  /** The well-formed bars of a response, in order. */
  function WellFormed(py: Python, candles: seq<Json>): Result<seq<Bar>> {
    if candles == [] then Ok([])
    else
      var before :- WellFormed(py, candles[..|candles| - 1]);
      var bar :- BarFromCandle(py, candles[|candles| - 1]);
      Ok(before + if bar.Some? then [bar.value] else [])
  }

  predicate InRegularHours(py: Python, bar: Bar, end: int) {
    REGULAR_SESSION_START as real <= py.eastern(bar.timestamp).minute < end as real
  }

  predicate Belongs(py: Python, bar: Bar, date: int, end: Option<int>, session: Session) {
    && end.Some?
    && py.eastern(bar.timestamp).day == date
    && (InRegularHours(py, bar, end.value) <==> session == Regular)
  }

  function Picked(py: Python, bars: seq<Bar>, date: int, end: Option<int>, session: Session): seq<Bar> {
    if bars == [] then []
    else
      var last := bars[|bars| - 1];
      Picked(py, bars[..|bars| - 1], date, end, session) + if Belongs(py, last, date, end, session) then [last] else []
  }

  function LastTime(bars: seq<Bar>): Option<real> {
    if bars == [] then None else Some(bars[|bars| - 1].timestamp)
  }

  function Described(symbol: string, date: int, session: Session, end: Option<int>, malformed: bool, bars: seq<Bar>, at: real, staleAfter: real): SessionHistory {
    var event := LastTime(bars);
    var stale := IsStale(event, at, staleAfter);
    SessionHistory(
      symbol, date, session, bars, event, at, stale, AgeSeconds(event, at),
      When(end.None?, MarketHoliday)
      + When(end == Some(EARLY_CLOSE_SESSION_END), EarlyClose)
      + When(malformed, MalformedBarsDropped)
      + When(bars == [], NoBarsReturned)
      + When(stale, StaleFlag))
  }

  function HistoryOf(py: Python, symbol: string, date: int, session: Session, payload: Json, at: real, staleAfter: real): Result<SessionHistory>
    requires date >= 1
  {
    if !payload.List? then Raises
    else
      var bars :- WellFormed(py, payload.items);
      var end := RegularSessionEnd(date);
      Ok(Described(symbol, date, session, end, |bars| < |payload.items|, Picked(py, bars, date, end, session), at, staleAfter))
  }

  lemma {:induction false} WellFormedRaisingPersists(py: Python, candles: seq<Json>, i: nat)
    requires i <= |candles| && WellFormed(py, candles[..i]).Raises?
    ensures WellFormed(py, candles).Raises?
    decreases |candles|
  {
    if i == |candles| {
      assert candles[..i] == candles;
    } else {
      assert candles[..|candles| - 1][..i] == candles[..i];
      WellFormedRaisingPersists(py, candles[..|candles| - 1], i);
    }
  }

  method PickBars(py: Python, candles: seq<Json>, date: int, end: Option<int>, session: Session)
      returns (r: Result<(seq<Bar>, nat)>)
    ensures var formed := WellFormed(py, candles);
            r == if formed.Raises? then Raises
                 else Ok((Picked(py, formed.value, date, end, session), |candles| - |formed.value|))
  {
    hide BarFromCandle;
    var bars: seq<Bar>, dropped: nat := [], 0;
    for i := 0 to |candles|
      invariant dropped <= i
      invariant var formed := WellFormed(py, candles[..i]);
                formed.Ok? && |formed.value| + dropped == i && bars == Picked(py, formed.value, date, end, session)
    {
      assert candles[..i + 1][..i] == candles[..i];
      ghost var before := WellFormed(py, candles[..i]).value;
      var bar := BarFromCandle(py, candles[i]);
      if bar.Raises? {
        WellFormedRaisingPersists(py, candles, i + 1);
        return Raises;
      }
      if bar.value.None? {
        dropped := dropped + 1;
        assert before + [] == before;
        continue;
      }
      ghost var formed := before + [bar.value.value];
      assert WellFormed(py, candles[..i + 1]) == Ok(formed) && formed[..|formed| - 1] == before;
      var eastern := py.eastern(bar.value.value.timestamp);
      if eastern.day != date || end.None? {
        continue;
      }
      var isRegular := REGULAR_SESSION_START as real <= eastern.minute < end.value as real;
      if isRegular == (session == Regular) {
        bars := bars + [bar.value.value];
      }
    }
    assert candles[..|candles|] == candles;
    r := Ok((bars, dropped));
  }

  method NormalizeSessionHistory(py: Python, symbol: string, date: int, session: Session, payload: Json, at: real, staleAfter: real)
      returns (r: Result<SessionHistory>)
    requires date >= 1
    ensures r == HistoryOf(py, symbol, date, session, payload, at, staleAfter)
  {
    hide WellFormed, Picked, RegularSessionEnd, AgeSeconds, IsStale;
    if !payload.List? {
      return Raises;
    }
    var end := RegularSessionEnd(date);
    var flags: seq<Flag> := [];
    if end.None? {
      flags := flags + [MarketHoliday];
    } else if end.value == EARLY_CLOSE_SESSION_END {
      flags := flags + [EarlyClose];
    }
    var picked := PickBars(py, payload.items, date, end, session);
    if picked.Raises? {
      return Raises;
    }
    var (bars, dropped) := picked.value;
    if dropped > 0 {
      flags := flags + [MalformedBarsDropped];
    }
    if bars == [] {
      flags := flags + [NoBarsReturned];
    }
    var event := LastTime(bars);
    var stale := IsStale(event, at, staleAfter);
    if stale {
      flags := flags + [StaleFlag];
    }
    assert flags == When(end.None?, MarketHoliday)
                    + When(end == Some(EARLY_CLOSE_SESSION_END), EarlyClose)
                    + When(dropped > 0, MalformedBarsDropped)
                    + When(bars == [], NoBarsReturned)
                    + When(stale, StaleFlag);
    r := Ok(SessionHistory(symbol, date, session, bars, event, at, stale, AgeSeconds(event, at), flags));
  }

  // ---------------------------------------------------------------------------------------
  // The two sessions partition the day.
  // ---------------------------------------------------------------------------------------

  function OfDay(py: Python, bars: seq<Bar>, date: int): seq<Bar> {
    if bars == [] then []
    else
      var last := bars[|bars| - 1];
      OfDay(py, bars[..|bars| - 1], date) + if py.eastern(last.timestamp).day == date then [last] else []
  }

  /** Which side each item of the whole came from: replaying the choices merges the two
      parts, in order and without remainder. */
  ghost predicate Interleaves<T>(whole: seq<T>, a: seq<T>, b: seq<T>, fromA: seq<bool>)
    decreases |whole|
  {
    if whole == [] then a == [] && b == [] && fromA == []
    else
      var n := |whole| - 1;
      && |fromA| == n + 1
      && if fromA[n] then a != [] && a[|a| - 1] == whole[n] && Interleaves(whole[..n], a[..|a| - 1], b, fromA[..n])
         else b != [] && b[|b| - 1] == whole[n] && Interleaves(whole[..n], a, b[..|b| - 1], fromA[..n])
  }

  ghost function RegularMarks(py: Python, bars: seq<Bar>, end: int): seq<bool> {
    seq(|bars|, k requires 0 <= k < |bars| => InRegularHours(py, bars[k], end))
  }

  lemma InterleavesOneMore<T>(whole: seq<T>, a: seq<T>, b: seq<T>, fromA: seq<bool>, x: T, left: bool)
    requires Interleaves(whole, a, b, fromA)
    ensures Interleaves(whole + [x], if left then a + [x] else a, if left then b else b + [x], fromA + [left])
  {
    assert (whole + [x])[..|whole|] == whole && (a + [x])[..|a|] == a && (b + [x])[..|b|] == b;
    assert |fromA| == |whole| && (fromA + [left])[..|whole|] == fromA;
  }

  lemma {:induction false} PickedPartition(py: Python, bars: seq<Bar>, date: int, end: Option<int>)
    ensures end.None? ==> Picked(py, bars, date, end, Regular) == [] && Picked(py, bars, date, end, Extended) == []
    ensures end.Some? ==>
              var day := OfDay(py, bars, date);
              Interleaves(day, Picked(py, bars, date, end, Regular), Picked(py, bars, date, end, Extended),
                          RegularMarks(py, day, end.value))
  {
    if bars != [] {
      var front, last := bars[..|bars| - 1], bars[|bars| - 1];
      PickedPartition(py, front, date, end);
      if end.Some? && py.eastern(last.timestamp).day == date {
        hide Interleaves;
        var before := OfDay(py, front, date);
        var left := InRegularHours(py, last, end.value);
        InterleavesOneMore(before, Picked(py, front, date, end, Regular), Picked(py, front, date, end, Extended),
                           RegularMarks(py, before, end.value), last, left);
        var r, e := Picked(py, front, date, end, Regular), Picked(py, front, date, end, Extended);
        assert OfDay(py, bars, date) == before + [last];
        assert RegularMarks(py, before + [last], end.value) == RegularMarks(py, before, end.value) + [left];
        assert Picked(py, bars, date, end, Regular) == if left then r + [last] else r;
        assert Picked(py, bars, date, end, Extended) == if left then e else e + [last];
      } else if end.Some? {
        assert OfDay(py, bars, date) == OfDay(py, front, date);
        assert Picked(py, bars, date, end, Regular) == Picked(py, front, date, end, Regular);
        assert Picked(py, bars, date, end, Extended) == Picked(py, front, date, end, Extended);
      }
    }
  }

  /** The regular and the extended result of the same candles interleave to exactly the
      well-formed bars of that New York day, the regular ones being those of regular hours;
      on a day without a session both are empty. */
  lemma SessionsPartitionTheDay(py: Python, symbol: string, date: int, payload: Json, at: real, staleAfter: real)
    requires date >= 1
    ensures var regular := HistoryOf(py, symbol, date, Regular, payload, at, staleAfter);
            var extended := HistoryOf(py, symbol, date, Extended, payload, at, staleAfter);
            && (regular.Ok? <==> extended.Ok?)
            && (regular.Ok? ==>
                  var day := OfDay(py, WellFormed(py, payload.items).value, date);
                  if IsTradingDay(date)
                  then Interleaves(day, regular.value.candles, extended.value.candles,
                                   RegularMarks(py, day, RegularSessionEnd(date).value))
                  else regular.value.candles == [] && extended.value.candles == [])
  {
    hide WellFormed, IsTradingDay, Picked, Interleaves, RegularMarks, OfDay, EarlyCloseSessions;
    if HistoryOf(py, symbol, date, Regular, payload, at, staleAfter).Ok? {
      var bars, end := WellFormed(py, payload.items).value, RegularSessionEnd(date);
      PickedPartition(py, bars, date, end);
      assert IsTradingDay(date) <==> end.Some?;
    }
  }

  /** Merged parts lose and repeat nothing, and each item of the first part is one the
      choices assign to it. */
  lemma {:induction false} InterleavingConserves<T>(whole: seq<T>, a: seq<T>, b: seq<T>, fromA: seq<bool>)
    requires Interleaves(whole, a, b, fromA)
    ensures multiset(whole) == multiset(a) + multiset(b)
    ensures |whole| == |a| + |b|
    decreases |whole|
  {
    if whole != [] {
      var n := |whole| - 1;
      assert whole == whole[..n] + [whole[n]];
      if fromA[n] {
        assert a == a[..|a| - 1] + [a[|a| - 1]];
        InterleavingConserves(whole[..n], a[..|a| - 1], b, fromA[..n]);
      } else {
        assert b == b[..|b| - 1] + [b[|b| - 1]];
        InterleavingConserves(whole[..n], a, b[..|b| - 1], fromA[..n]);
      }
    }
  }

  // ---------------------------------------------------------------------------------------
  // A cached session looked at later.
  // ---------------------------------------------------------------------------------------

  function RefreshedHistory(h: SessionHistory, at: real, staleAfter: real): SessionHistory {
    var stale := IsStale(h.event, at, staleAfter);
    h.(age := AgeSeconds(h.event, at), stale := stale, flags := Refreshed(h.flags, stale))
  }

  lemma CachedSessionEqualsFreshWork(py: Python, symbol: string, date: int, session: Session, payload: Json, at: real, later: real, staleAfter: real)
    requires date >= 1
    ensures var was := HistoryOf(py, symbol, date, session, payload, at, staleAfter);
            var now := HistoryOf(py, symbol, date, session, payload, later, staleAfter);
            && (was.Ok? <==> now.Ok?)
            && (was.Ok? ==> RefreshedHistory(was.value, later, staleAfter) == now.value.(receivedAt := at))
  {
    hide WellFormed, Picked, RegularSessionEnd;
    var was := HistoryOf(py, symbol, date, session, payload, at, staleAfter);
    if was.Ok? {
      var bars := was.value.candles;
      var end := RegularSessionEnd(date);
      var malformed := |WellFormed(py, payload.items).value| < |payload.items|;
      var fixedFlags := When(end.None?, MarketHoliday)
                        + When(end == Some(EARLY_CLOSE_SESSION_END), EarlyClose)
                        + When(malformed, MalformedBarsDropped)
                        + When(bars == [], NoBarsReturned);
      DroppingTail(fixedFlags, When(was.value.stale, StaleFlag), {StaleFlag});
    }
  }

  /** Refreshing twice is refreshing once, at the later time. */
  lemma RefreshingComposes(h: SessionHistory, first: real, last: real, staleAfter: real)
    ensures RefreshedHistory(RefreshedHistory(h, first, staleAfter), last, staleAfter) == RefreshedHistory(h, last, staleAfter)
  {
    DroppingTail(Dropping(h.flags, {StaleFlag}), When(IsStale(h.event, first, staleAfter), StaleFlag), {StaleFlag});
  }
}
