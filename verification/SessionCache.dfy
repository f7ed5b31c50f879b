/** Completed sessions, kept without expiry in a least-recently-used cache of bounded size. */
module SessionCaches {
  import opened Common
  import opened Payloads
  import opened Freshness
  import opened MarketCalendar
  import opened SessionHistories
  import opened RecencyCaches

  datatype SessionKey = SessionKey(symbol: string, date: int, session: Session)

  type Cached = Entry<SessionKey, StoredSession>

  function KeyOf(h: SessionHistory): SessionKey {
    SessionKey(h.symbol, h.date, h.session)
  }

  // ---------------------------------------------------------------------------------------
  // The stored text. JSON has no infinities: a price it cannot carry is written as null, and
  // null is no price when the text is read back.
  // ---------------------------------------------------------------------------------------

  datatype Numeral = Digits(v: real) | NullNumeral

  datatype StoredBar = StoredBar(timestamp: real, open: Numeral, high: Numeral, low: Numeral, close: Numeral, volume: int)

  /** Everything but the candles survives the text unchanged, so only they are spelled out. */
  datatype StoredSession = StoredSession(rest: SessionHistory, candles: seq<StoredBar>)

  function WriteFloat(x: Float): Numeral {
    if x.Finite? then Digits(x.v) else NullNumeral
  }

  function WriteBar(b: Bar): StoredBar {
    StoredBar(b.timestamp, WriteFloat(b.open), WriteFloat(b.high), WriteFloat(b.low), WriteFloat(b.close), b.volume)
  }

  function WriteBars(bars: seq<Bar>): seq<StoredBar> {
    seq(|bars|, k requires 0 <= k < |bars| => WriteBar(bars[k]))
  }

  function WriteSession(h: SessionHistory): StoredSession {
    StoredSession(h.(candles := []), WriteBars(h.candles))
  }

  function ReadBar(b: StoredBar): Result<Bar> {
    if b.open.Digits? && b.high.Digits? && b.low.Digits? && b.close.Digits?
    then Ok(Bar(b.timestamp, Finite(b.open.v), Finite(b.high.v), Finite(b.low.v), Finite(b.close.v), b.volume))
    else Raises
  }

  function ReadBars(bars: seq<StoredBar>): Result<seq<Bar>> {
    if bars == [] then Ok([])
    else
      var before :- ReadBars(bars[..|bars| - 1]);
      var last :- ReadBar(bars[|bars| - 1]);
      Ok(before + [last])
  }

  function ReadSession(s: StoredSession): Result<SessionHistory> {
    var candles :- ReadBars(s.candles);
    Ok(s.rest.(candles := candles))
  }

  predicate IsFiniteBar(b: Bar) {
    b.open.Finite? && b.high.Finite? && b.low.Finite? && b.close.Finite?
  }

  predicate AllFinite(bars: seq<Bar>) {
    forall k :: 0 <= k < |bars| ==> IsFiniteBar(bars[k])
  }

  lemma {:induction false} BarsReadBackIff(bars: seq<Bar>)
    ensures ReadBars(WriteBars(bars)) == if AllFinite(bars) then Ok(bars) else Raises
  {
    if bars != [] {
      var n := |bars| - 1;
      BarsReadBackIff(bars[..n]);
      assert WriteBars(bars)[..n] == WriteBars(bars[..n]);
      assert bars == bars[..n] + [bars[n]];
      assert AllFinite(bars) <==> AllFinite(bars[..n]) && IsFiniteBar(bars[n]) by {
        assert forall k :: 0 <= k < n ==> bars[..n][k] == bars[k];
      }
    }
  }

  /** A session survives being stored exactly if all its prices are finite; otherwise reading
      it back fails. */
  lemma SessionReadsBackIff(h: SessionHistory)
    ensures ReadSession(WriteSession(h)) == if AllFinite(h.candles) then Ok(h) else Raises
  {
    BarsReadBackIff(h.candles);
  }

  /** What a hit gives. */
  function HitOf(s: StoredSession, now: real, staleAfter: real): Result<SessionHistory> {
    var h :- ReadSession(s);
    Ok(RefreshedHistory(h, now, staleAfter))
  }

  /** A stored read, looked at later, is the same response normalized then, but for the time
      of receipt, if and only if all its prices are finite; otherwise every hit fails. */
  lemma HitEqualsFreshWorkIffFinite(py: Python, key: SessionKey, payload: Json, at: real, now: real, staleAfter: real)
    requires key.date >= 1
    ensures var was := HistoryOf(py, key.symbol, key.date, key.session, payload, at, staleAfter);
            var current := HistoryOf(py, key.symbol, key.date, key.session, payload, now, staleAfter);
            was.Ok? ==>
              && current.Ok?
              && (HitOf(WriteSession(was.value), now, staleAfter) == Ok(current.value.(receivedAt := at))
                  <==> AllFinite(was.value.candles))
              && (HitOf(WriteSession(was.value), now, staleAfter).Raises? <==> !AllFinite(was.value.candles))
  {
    hide HistoryOf, RefreshedHistory, ReadSession, WriteSession, AllFinite;
    CachedSessionEqualsFreshWork(py, key.symbol, key.date, key.session, payload, at, now, staleAfter);
    var was := HistoryOf(py, key.symbol, key.date, key.session, payload, at, staleAfter);
    if was.Ok? {
      SessionReadsBackIff(was.value);
    }
  }

  predicate IsCompletedSession(py: Python, h: SessionHistory, at: real) {
    && h.date < py.eastern(at).day
    && h.candles != []
    && MalformedBarsDropped !in h.flags
  }

  /** `s` is what storing a completed read of some payload for that key left behind. */
  ghost predicate IsReadOf(py: Python, key: SessionKey, s: StoredSession, staleAfter: real) {
    && key.date >= 1
    && exists payload, at :: IsStoredRead(py, key, s, payload, at, staleAfter)
  }

  ghost predicate IsStoredRead(py: Python, key: SessionKey, s: StoredSession, payload: Json, at: real, staleAfter: real)
    requires key.date >= 1
  {
    var read := HistoryOf(py, key.symbol, key.date, key.session, payload, at, staleAfter);
    read.Ok? && s == WriteSession(read.value) && IsCompletedSession(py, read.value, at)
  }

  /** What a hit on a stored read gives now: some response normalized now, but for the time it
      was received, if its prices are finite; a failure if they are not. */
  ghost predicate IsReadNow(py: Python, key: SessionKey, hit: Result<SessionHistory>, now: real, staleAfter: real) {
    && key.date >= 1
    && exists payload, at :: IsThisReadNow(py, key, hit, payload, at, now, staleAfter)
  }

  ghost predicate IsThisReadNow(py: Python, key: SessionKey, hit: Result<SessionHistory>, payload: Json, at: real, now: real, staleAfter: real)
    requires key.date >= 1
  {
    var current := HistoryOf(py, key.symbol, key.date, key.session, payload, now, staleAfter);
    && current.Ok?
    && hit == if AllFinite(current.value.candles) then Ok(current.value.(receivedAt := at)) else Raises
  }

  lemma HitIsReadNow(py: Python, key: SessionKey, s: StoredSession, now: real, staleAfter: real)
    requires IsReadOf(py, key, s, staleAfter)
    ensures IsReadNow(py, key, HitOf(s, now, staleAfter), now, staleAfter)
  {
    hide HistoryOf, HitOf, WriteSession, AllFinite;
    var payload, at :| IsStoredRead(py, key, s, payload, at, staleAfter);
    HitEqualsFreshWorkIffFinite(py, key, payload, at, now, staleAfter);
    SameCandles(py, key, payload, at, now, staleAfter);
    assert IsThisReadNow(py, key, HitOf(s, now, staleAfter), payload, at, now, staleAfter);
  }

  lemma SameCandles(py: Python, key: SessionKey, payload: Json, at: real, now: real, staleAfter: real)
    requires key.date >= 1
    ensures var was := HistoryOf(py, key.symbol, key.date, key.session, payload, at, staleAfter);
            var current := HistoryOf(py, key.symbol, key.date, key.session, payload, now, staleAfter);
            was.Ok? ==> current.Ok? && was.value.candles == current.value.candles
  {
  }

  lemma ReadsKeepTheirKey(py: Python, symbol: string, date: int, session: Session, payload: Json, at: real, staleAfter: real)
    requires date >= 1
    ensures var h := HistoryOf(py, symbol, date, session, payload, at, staleAfter);
            h.Ok? ==> KeyOf(h.value) == SessionKey(symbol, date, session)
  {
  }

  // ---------------------------------------------------------------------------------------
  // The failing case is real.
  // ---------------------------------------------------------------------------------------

  const CANDLE_TIME := 1

  /** A candle like any other, but for an opening price that reads as infinity. */
  function InfiniteCandle(): Json {
    Object([(Text("datetime"), Integer(CANDLE_TIME)), (Text("open"), Text("Infinity")), (Text("high"), Integer(1)),
            (Text("low"), Integer(1)), (Text("close"), Integer(1)), (Text("volume"), Integer(1))])
  }

  /** The candle lies at ten in the morning of `date`; anything later is the next day. */
  function PlainPython(date: int): Python {
    Python(
      (v: Json) => if v == Text("Infinity") then Is(Infinite(false)) else if v.Integer? then Is(Finite(v.i as real)) else Refused,
      (v: Json) => if v.Integer? then Is(v.i) else Refused,
      (_: Json) => Refused,
      (millis: int) => Is(millis as real),
      (at: real) => if at <= CANDLE_TIME as real then Eastern(date, 600.0) else Eastern(date + 1, 600.0))
  }

  lemma InfiniteBar(date: int)
    ensures BarFromCandle(PlainPython(date), InfiniteCandle())
         == Ok(Some(Bar(CANDLE_TIME as real, Infinite(false), Finite(1.0), Finite(1.0), Finite(1.0), 1)))
  {
    hide Get;
    var o := InfiniteCandle().fields;
    assert "open"[0] != "high"[0];
    GetNth(o, 0, "datetime");
    GetNth(o, 1, "open");
    GetNth(o, 2, "high");
    GetNth(o, 3, "low");
    GetNth(o, 4, "close");
    GetNth(o, 5, "volume");
  }

  lemma OneCandle(py: Python, candle: Json, bar: Bar)
    requires BarFromCandle(py, candle) == Ok(Some(bar))
    ensures WellFormed(py, [candle]) == Ok([bar])
  {
    hide BarFromCandle;
    var one := [candle];
    assert one[..|one| - 1] == [] && one[|one| - 1] == candle;
    assert WellFormed(py, []) == Ok([]);
    var before: seq<Bar> := [];
    assert before + [bar] == [bar];
  }

  /** Ten in the morning is regular hours on every trading day. */
  lemma OneRegularBar(py: Python, bar: Bar, date: int)
    requires date >= 1 && IsTradingDay(date) && py.eastern(bar.timestamp) == Eastern(date, 600.0)
    ensures Picked(py, [bar], date, RegularSessionEnd(date), Regular) == [bar]
  {
    hide IsTradingDay, EarlyCloseSessions;
    var end := RegularSessionEnd(date);
    assert end.Some? && end.value >= EARLY_CLOSE_SESSION_END;
    var one := [bar];
    assert one[..|one| - 1] == [] && one[|one| - 1] == bar;
    assert Picked(py, [], date, end, Regular) == [];
  }

  /** On any trading day: a response whose completed session is accepted and may be stored,
      and on which every later hit then fails. */
  lemma InfinitePriceBreaksEveryHit(date: int, now: real, staleAfter: real)
    requires date >= 1 && IsTradingDay(date)
    ensures var read := HistoryOf(PlainPython(date), "SPY", date, Regular, List([InfiniteCandle()]), 2.0, staleAfter);
            && read.Ok?
            && IsCompletedSession(PlainPython(date), read.value, 2.0)
            && HitOf(WriteSession(read.value), now, staleAfter).Raises?
  {
    hide IsTradingDay, RegularSessionEnd, Picked, WellFormed, BarFromCandle, InfiniteCandle, IsStale, AgeSeconds, WriteSession, ReadSession;
    var py := PlainPython(date);
    var bar := Bar(CANDLE_TIME as real, Infinite(false), Finite(1.0), Finite(1.0), Finite(1.0), 1);
    InfiniteBar(date);
    OneCandle(py, InfiniteCandle(), bar);
    OneRegularBar(py, bar, date);
    var read := HistoryOf(py, "SPY", date, Regular, List([InfiniteCandle()]), 2.0, staleAfter).value;
    assert read.candles == [bar] && !IsFiniteBar(read.candles[0]);
    SessionReadsBackIff(read);
  }

  class SessionHistoryUpstream {
    const py: Python
    const size: SessionHistory -> nat
    const staleAfter: real
    const bounds: Bounds
    var cache: seq<Cached>
    var cacheBytes: int
    ghost var log: seq<Access<SessionKey, StoredSession>>

    /** The cache is the bounded reading of its own recency log, and every entry a completed read. */
    ghost predicate Valid()
      reads this
    {
      && bounds.entries >= 1 && bounds.bytes >= 1
      && Genuine(log, bounds)
      && cache == Bounded(log, bounds)
      && cacheBytes == Total(cache)
      && forall e :: e in cache ==> IsReadOf(py, e.key, e.value, staleAfter)
    }

    constructor (py: Python, size: SessionHistory -> nat, staleAfter: real, maxEntries: nat, maxBytes: nat)
      requires maxEntries >= 1 && maxBytes >= 1
      ensures Valid() && log == [] && cache == []
      ensures this.py == py && this.size == size && this.staleAfter == staleAfter && bounds == Bounds(maxEntries, maxBytes)
    {
      this.py, this.size, this.staleAfter := py, size, staleAfter;
      bounds := Bounds(maxEntries, maxBytes);
      cache, cacheBytes, log := [], 0, [];
    }

    /** The entry is marked as used before its text is read back, so a failing hit moves it too. */
    method CachedSessionHistory(key: SessionKey, now: real) returns (r: Result<Option<SessionHistory>>)
      requires Valid()
      modifies this
      ensures Valid()
      ensures r == Ok(None) <==> !HasKey(old(cache), key)
      ensures r == Ok(None) ==> cache == old(cache) && log == old(log)
      ensures r != Ok(None) ==> log == old(log) + [Used(key)] && cache == Touched(old(cache), key)
      ensures r != Ok(None) ==>
                var hit := if r.Raises? then Raises else Ok(r.value.value);
                && LatestStore(old(log), key).Some?
                && hit == HitOf(LatestStore(old(log), key).value.value, now, staleAfter)
                && IsReadNow(py, key, hit, now, staleAfter)
    {
      hide Bounded, Genuine, IsReadOf, IsReadNow, RefreshedHistory, LatestStore, Total, Others, IsSuffix, Stack, ReadSession;
      var found := Find(cache, key);
      if found.None? {
        return Ok(None);
      }
      BoundedIsRecentPartOfStack(log, bounds);
      TouchedMovesToTheEnd(cache, key);
      LogGrows(log, Used(key), bounds);
      cache := Others(cache, key) + [found.value];
      log := log + [Used(key)];
      HitIsReadNow(py, key, found.value.value, now, staleAfter);
      var read := ReadSession(found.value.value);
      if read.Raises? {
        return Raises;
      }
      r := Ok(Some(RefreshedHistory(read.value, now, staleAfter)));
    }

    method EvictToBounds()
      requires cacheBytes == Total(cache)
      modifies this`cache, this`cacheBytes
      ensures cache == Trimmed(old(cache), bounds) && cacheBytes == Total(cache)
    {
      while |cache| > bounds.entries || cacheBytes > bounds.bytes
        invariant cacheBytes == Total(cache)
        invariant Trimmed(cache, bounds) == Trimmed(old(cache), bounds)
        decreases |cache|
      {
        cacheBytes := cacheBytes - cache[0].bytes;
        cache := cache[1..];
      }
    }

    method Insert(e: Cached)
      requires Distinct(cache) && cacheBytes == Total(cache)
      modifies this`cache, this`cacheBytes
      ensures cache == Trimmed(Placed(old(cache), e), bounds) && cacheBytes == Total(cache)
    {
      hide Trimmed;
      TotalOfBoth(Others(cache, e.key), [e]);
      assert Total([e]) == e.bytes;
      var previous := Find(cache, e.key);
      if previous.Some? {
        TakingOneOut(cache, previous.value);
        cache := Others(cache, e.key);
        cacheBytes := cacheBytes - previous.value.bytes;
      } else {
        NothingToTakeOut(cache, e.key);
      }
      cache := cache + [e];
      cacheBytes := cacheBytes + e.bytes;
      EvictToBounds();
    }

    /** A read is kept exactly if its session is complete and it fits on its own; it then is
        the most recently used entry. */
    method Store(h: SessionHistory, receivedAt: real)
      requires Valid()
      requires IsCompletedSession(py, h, receivedAt) ==> IsReadOf(py, KeyOf(h), WriteSession(h), staleAfter)
      modifies this
      ensures Valid()
      ensures var kept := IsCompletedSession(py, h, receivedAt) && size(h) <= bounds.bytes;
              var e := Entry(KeyOf(h), WriteSession(h), size(h));
              if kept then
                && log == old(log) + [Stored(e)]
                && cache == Trimmed(Placed(old(cache), e), bounds)
                && cache != [] && cache[|cache| - 1] == e
              else log == old(log) && cache == old(cache)
    {
      hide Bounded, Genuine, IsReadOf, IsCompletedSession, Trimmed, Placed, Total, KeyOf, WriteSession;
      if !IsCompletedSession(py, h, receivedAt) {
        return;
      }
      if size(h) > bounds.bytes {
        return;
      }
      var e := Entry(KeyOf(h), WriteSession(h), size(h));
      BoundedIsRecentPartOfStack(log, bounds);
      LogGrows(log, Stored(e), bounds);
      JustStoredSurvives(cache, e, bounds);
      OnlyTheNewEntryIsNew(cache, e, bounds);
      Insert(e);
      log := log + [Stored(e)];
    }

    /** A response has arrived: it is normalized, kept if it may be, and returned. */
    method ReadArrives(key: SessionKey, payload: Json, now: real) returns (r: Result<SessionHistory>)
      requires Valid() && key.date >= 1
      modifies this
      ensures Valid()
      ensures r == HistoryOf(py, key.symbol, key.date, key.session, payload, now, staleAfter)
      ensures if r.Ok? && IsCompletedSession(py, r.value, now) && size(r.value) <= bounds.bytes
              then log == old(log) + [Stored(Entry(key, WriteSession(r.value), size(r.value)))] && HasKey(cache, key)
              else log == old(log) && cache == old(cache)
    {
      hide Bounded, Genuine, IsCompletedSession, HistoryOf, WriteSession;
      r := NormalizeSessionHistory(py, key.symbol, key.date, key.session, payload, now, staleAfter);
      if r.Raises? {
        return;
      }
      ReadsKeepTheirKey(py, key.symbol, key.date, key.session, payload, now, staleAfter);
      assert IsCompletedSession(py, r.value, now) ==> IsStoredRead(py, key, WriteSession(r.value), payload, now, staleAfter);
      Store(r.value, now);
    }
  }
}
