/** Bounded least-recently-used caches against the log of everything that was ever done to them. */
module RecencyCaches {
  import opened Common

  /** One stored payload; a cache lists its entries from the least to the most recently used. */
  datatype Entry<K, V> = Entry(key: K, value: V, bytes: nat)

  datatype Bounds = Bounds(entries: nat, bytes: nat)

  function Total<K, V>(entries: seq<Entry<K, V>>): nat {
    if entries == [] then 0 else entries[0].bytes + Total(entries[1..])
  }

  predicate Fits<K, V>(entries: seq<Entry<K, V>>, bounds: Bounds) {
    |entries| <= bounds.entries && Total(entries) <= bounds.bytes
  }

  ghost predicate Distinct<K, V>(entries: seq<Entry<K, V>>) {
    forall i, j :: 0 <= i < j < |entries| ==> entries[i].key != entries[j].key
  }

  function Filter<T>(s: seq<T>, keep: T -> bool): (r: seq<T>)
    ensures forall x :: x in r ==> x in s && keep(x)
    ensures forall x :: x in s && keep(x) ==> x in r
    ensures |r| <= |s|
  {
    if s == [] then []
    else if keep(s[0]) then [s[0]] + Filter(s[1..], keep)
    else Filter(s[1..], keep)
  }

  predicate HasKey<K(==), V>(entries: seq<Entry<K, V>>, key: K) {
    exists i :: 0 <= i < |entries| && entries[i].key == key
  }

  function Find<K(==), V>(entries: seq<Entry<K, V>>, key: K): (r: Option<Entry<K, V>>)
    ensures r.None? <==> !HasKey(entries, key)
    ensures r.Some? ==> r.value in entries && r.value.key == key
  {
    if entries == [] then None
    else if entries[0].key == key then Some(entries[0])
    else Find(entries[1..], key)
  }

  function Others<K(==), V>(entries: seq<Entry<K, V>>, key: K): seq<Entry<K, V>> {
    Filter(entries, (e: Entry<K, V>) => e.key != key)
  }

  function Touched<K(==), V>(entries: seq<Entry<K, V>>, key: K): seq<Entry<K, V>> {
    match Find(entries, key)
    case None => entries
    case Some(e) => Others(entries, key) + [e]
  }

  /** What is left once the oldest entries have made room. */
  function Trimmed<K, V>(entries: seq<Entry<K, V>>, bounds: Bounds): seq<Entry<K, V>> {
    if Fits(entries, bounds) || entries == [] then entries else Trimmed(entries[1..], bounds)
  }

  function Placed<K(==), V>(entries: seq<Entry<K, V>>, e: Entry<K, V>): seq<Entry<K, V>> {
    Others(entries, e.key) + [e]
  }

  // ---------------------------------------------------------------------------------------
  // Lists of entries.
  // ---------------------------------------------------------------------------------------

  lemma {:induction false} TotalOfBoth<K, V>(a: seq<Entry<K, V>>, b: seq<Entry<K, V>>)
    ensures Total(a + b) == Total(a) + Total(b)
  {
    if a == [] {
      assert a + b == b;
    } else {
      assert (a + b)[1..] == a[1..] + b;
      TotalOfBoth(a[1..], b);
    }
  }

  lemma {:induction false} FilterBoth<T>(a: seq<T>, b: seq<T>, keep: T -> bool)
    ensures Filter(a + b, keep) == Filter(a, keep) + Filter(b, keep)
  {
    if a == [] {
      assert a + b == b;
    } else {
      assert (a + b)[1..] == a[1..] + b;
      FilterBoth(a[1..], b, keep);
    }
  }

  lemma {:induction false} FilterKeepsDistinct<K, V>(entries: seq<Entry<K, V>>, keep: Entry<K, V> -> bool)
    requires Distinct(entries)
    ensures Distinct(Filter(entries, keep)) && Total(Filter(entries, keep)) <= Total(entries)
  {
    if entries != [] {
      FilterKeepsDistinct(entries[1..], keep);
      var r := Filter(entries[1..], keep);
      forall j | 0 <= j < |r|
        ensures r[j].key != entries[0].key
      {
        assert r[j] in r;
        var i :| 0 <= i < |entries[1..]| && entries[1..][i] == r[j];
        assert entries[i + 1] == r[j];
      }
    }
  }

  lemma {:induction false} FilterKeepsAll<T>(s: seq<T>, keep: T -> bool)
    requires forall x :: x in s ==> keep(x)
    ensures Filter(s, keep) == s
  {
    if s != [] {
      FilterKeepsAll(s[1..], keep);
    }
  }

  lemma DistinctFind<K, V>(entries: seq<Entry<K, V>>, e: Entry<K, V>)
    requires Distinct(entries) && e in entries
    ensures Find(entries, e.key) == Some(e)
  {
    var found := Find(entries, e.key).value;
    var i :| 0 <= i < |entries| && entries[i] == e;
    var j :| 0 <= j < |entries| && entries[j] == found;
  }

  lemma PutKeepsDistinct<K, V>(entries: seq<Entry<K, V>>, e: Entry<K, V>)
    requires Distinct(entries)
    ensures Distinct(Placed(entries, e))
  {
    var rest := Others(entries, e.key);
    FilterKeepsDistinct(entries, (x: Entry<K, V>) => x.key != e.key);
    assert forall i :: 0 <= i < |rest| ==> rest[i] in rest;
  }

  lemma {:induction false} TakingOneOut<K, V>(entries: seq<Entry<K, V>>, e: Entry<K, V>)
    requires Distinct(entries) && e in entries
    ensures Total(Others(entries, e.key)) == Total(entries) - e.bytes
    ensures |Others(entries, e.key)| == |entries| - 1
  {
    var keep := (x: Entry<K, V>) => x.key != e.key;
    if entries[0] == e {
      assert forall i :: 0 <= i < |entries[1..]| ==> entries[1..][i] == entries[i + 1];
      FilterKeepsAll(entries[1..], keep);
    } else {
      assert entries[0].key != e.key by {
        var i :| 0 <= i < |entries| && entries[i] == e;
      }
      TakingOneOut(entries[1..], e);
    }
  }

  lemma {:induction false} FilterTwice<T>(s: seq<T>, first: T -> bool, second: T -> bool)
    requires forall x :: x in s && second(x) ==> first(x)
    ensures Filter(Filter(s, first), second) == Filter(s, second)
  {
    if s != [] {
      assert s[0] in s && forall x :: x in s[1..] ==> x in s;
      FilterTwice(s[1..], first, second);
    }
  }

  /** Removing an entry that a filter drops anyway makes no difference to what it keeps. */
  lemma TakingUnwantedOut<K, V>(cache: seq<Entry<K, V>>, e: Entry<K, V>, keep: Entry<K, V> -> bool)
    requires Distinct(cache) && e in cache && !keep(e)
    ensures Filter(Others(cache, e.key), keep) == Filter(cache, keep)
    ensures Distinct(Others(cache, e.key)) && Total(Others(cache, e.key)) == Total(cache) - e.bytes
    ensures forall x :: x in Others(cache, e.key) ==> x in cache && x.key != e.key
  {
    var other := (x: Entry<K, V>) => x.key != e.key;
    TakingOneOut(cache, e);
    FilterKeepsDistinct(cache, other);
    forall x | x in cache && keep(x)
      ensures other(x)
    {
      if x.key == e.key {
        DistinctFind(cache, x);
        DistinctFind(cache, e);
      }
    }
    FilterTwice(cache, other, keep);
  }

  lemma OthersKeepOtherKeys<K, V>(cache: seq<Entry<K, V>>, key: K)
    ensures forall k :: k != key && HasKey(cache, k) ==> HasKey(Others(cache, key), k)
  {
    forall k | k != key && HasKey(cache, k)
      ensures HasKey(Others(cache, key), k)
    {
      var x := Find(cache, k).value;
      assert x in Others(cache, key);
    }
  }

  lemma NothingToTakeOut<K, V>(entries: seq<Entry<K, V>>, key: K)
    requires !HasKey(entries, key)
    ensures Others(entries, key) == entries
  {
    FilterKeepsAll(entries, (x: Entry<K, V>) => x.key != key);
  }

  lemma TouchedMovesToTheEnd<K, V>(entries: seq<Entry<K, V>>, key: K)
    requires Distinct(entries)
    ensures Distinct(Touched(entries, key))
    ensures |Touched(entries, key)| == |entries| && Total(Touched(entries, key)) == Total(entries)
    ensures forall x :: x in Touched(entries, key) <==> x in entries
    ensures Others(Touched(entries, key), key) == Others(entries, key)
    ensures HasKey(entries, key) ==> Touched(entries, key)[|entries| - 1].key == key
  {
    var found := Find(entries, key);
    if found.Some? {
      var e := found.value;
      PutKeepsDistinct(entries, e);
      TakingOneOut(entries, e);
      TotalOfBoth(Others(entries, key), [e]);
      FilterBoth(Others(entries, key), [e], (x: Entry<K, V>) => x.key != key);
      FilterKeepsAll(Others(entries, key), (x: Entry<K, V>) => x.key != key);
      forall x | x in entries && x != e
        ensures x in Others(entries, key)
      {
        if x.key == key {
          DistinctFind(entries, x);
        }
      }
    }
  }

  // ---------------------------------------------------------------------------------------
  // Eviction.
  // ---------------------------------------------------------------------------------------

  ghost predicate IsSuffix<T>(part: seq<T>, whole: seq<T>) {
    |part| <= |whole| && whole[|whole| - |part|..] == part
  }

  lemma SuffixTrans<T>(a: seq<T>, b: seq<T>, c: seq<T>)
    requires IsSuffix(a, b) && IsSuffix(b, c)
    ensures IsSuffix(a, c)
  {
  }

  lemma SuffixOfBoth<T>(part: seq<T>, whole: seq<T>, more: seq<T>)
    requires IsSuffix(part, whole)
    ensures IsSuffix(part + more, whole + more)
  {
    var front := whole[..|whole| - |part|];
    assert whole == front + part;
    assert whole + more == front + (part + more);
  }

  lemma FilterKeepsSuffix<T>(part: seq<T>, whole: seq<T>, keep: T -> bool)
    requires IsSuffix(part, whole)
    ensures IsSuffix(Filter(part, keep), Filter(whole, keep))
  {
    var front := whole[..|whole| - |part|];
    assert whole == front + part;
    FilterBoth(front, part, keep);
  }

  /** Eviction keeps the longest run of most recently used entries that meets both bounds. */
  lemma {:induction false} TrimmedIsLongestFit<K, V>(entries: seq<Entry<K, V>>, bounds: Bounds)
    ensures var kept := Trimmed(entries, bounds);
            && IsSuffix(kept, entries) && Fits(kept, bounds)
            && forall k :: 0 <= k < |entries| - |kept| ==> !Fits(entries[k..], bounds)
  {
    if !Fits(entries, bounds) && entries != [] {
      TrimmedIsLongestFit(entries[1..], bounds);
      var kept := Trimmed(entries, bounds);
      forall k | 0 <= k < |entries| - |kept|
        ensures !Fits(entries[k..], bounds)
      {
        if k == 0 {
          assert entries[0..] == entries;
        } else {
          assert entries[k..] == entries[1..][k - 1..];
        }
      }
    }
  }

  lemma OnlyTheNewEntryIsNew<K, V>(entries: seq<Entry<K, V>>, e: Entry<K, V>, bounds: Bounds)
    ensures forall x :: x in Trimmed(Placed(entries, e), bounds) ==> x == e || x in entries
  {
    TrimmedIsLongestFit(Placed(entries, e), bounds);
  }

  lemma OnlyTheNewKeyIsNew<K, V>(entries: seq<Entry<K, V>>, e: Entry<K, V>, bounds: Bounds, key: K)
    ensures HasKey(Trimmed(Placed(entries, e), bounds), key) ==> key == e.key || HasKey(entries, key)
  {
    var kept := Trimmed(Placed(entries, e), bounds);
    OnlyTheNewEntryIsNew(entries, e, bounds);
    forall i | 0 <= i < |kept| && kept[i].key == key
      ensures key == e.key || HasKey(entries, key)
    {
      assert kept[i] in kept;
    }
  }

  /** An entry that fits on its own survives the eviction its arrival causes. */
  lemma JustStoredSurvives<K, V>(entries: seq<Entry<K, V>>, e: Entry<K, V>, bounds: Bounds)
    requires bounds.entries >= 1 && e.bytes <= bounds.bytes
    ensures var kept := Trimmed(Placed(entries, e), bounds);
            kept != [] && kept[|kept| - 1] == e
  {
    var all := Placed(entries, e);
    var kept := Trimmed(all, bounds);
    TrimmedIsLongestFit(all, bounds);
    assert all[|all| - 1..] == [e];
    assert Total([e]) == e.bytes;
  }

  lemma SuffixKeepsDistinct<K, V>(part: seq<Entry<K, V>>, whole: seq<Entry<K, V>>)
    requires IsSuffix(part, whole) && Distinct(whole)
    ensures Distinct(part) && forall x :: x in part ==> x in whole
  {
    var d := |whole| - |part|;
    assert forall i :: 0 <= i < |part| ==> part[i] == whole[d + i];
  }

  // ---------------------------------------------------------------------------------------
  // The recency log.
  // ---------------------------------------------------------------------------------------

  datatype Access<!K, !V> = Stored(entry: Entry<K, V>) | Used(key: K) | Swept(live: Entry<K, V> -> bool)

  /** What an unbounded cache would hold. */
  function Stack<K(==), V>(log: seq<Access<K, V>>): seq<Entry<K, V>> {
    if log == [] then []
    else
      var before := Stack(log[..|log| - 1]);
      match log[|log| - 1]
      case Stored(e) => Placed(before, e)
      case Used(key) => Touched(before, key)
      case Swept(live) => Filter(before, live)
  }

  function Bounded<K(==), V>(log: seq<Access<K, V>>, bounds: Bounds): seq<Entry<K, V>> {
    if log == [] then [] else After(Bounded(log[..|log| - 1], bounds), log[|log| - 1], bounds)
  }

  function After<K(==), V>(cache: seq<Entry<K, V>>, access: Access<K, V>, bounds: Bounds): seq<Entry<K, V>> {
    match access
    case Stored(e) => Trimmed(Placed(cache, e), bounds)
    case Used(key) => Touched(cache, key)
    case Swept(live) => Filter(cache, live)
  }

  /** Only what fits is stored, and only what is there is used. */
  predicate Genuine<K(==), V>(log: seq<Access<K, V>>, bounds: Bounds) {
    log == [] ||
    (Genuine(log[..|log| - 1], bounds) && Possible(Bounded(log[..|log| - 1], bounds), log[|log| - 1], bounds))
  }

  predicate Possible<K(==), V>(cache: seq<Entry<K, V>>, access: Access<K, V>, bounds: Bounds) {
    match access
    case Stored(e) => e.bytes <= bounds.bytes
    case Used(key) => HasKey(cache, key)
    case Swept(_) => true
  }

  function LatestStore<K(==), V>(log: seq<Access<K, V>>, key: K): Option<Entry<K, V>> {
    if log == [] then None
    else if log[|log| - 1].Stored? && log[|log| - 1].entry.key == key then Some(log[|log| - 1].entry)
    else LatestStore(log[..|log| - 1], key)
  }

  lemma TouchingKeepsSuffix<K, V>(part: seq<Entry<K, V>>, whole: seq<Entry<K, V>>, key: K)
    requires IsSuffix(part, whole) && Distinct(whole) && HasKey(part, key)
    ensures IsSuffix(Touched(part, key), Touched(whole, key))
  {
    SuffixKeepsDistinct(part, whole);
    var e := Find(part, key).value;
    DistinctFind(whole, e);
    FilterKeepsSuffix(part, whole, (x: Entry<K, V>) => x.key != key);
    SuffixOfBoth(Others(part, key), Others(whole, key), [e]);
  }

  lemma {:induction false} StackHoldsLatest<K, V>(log: seq<Access<K, V>>)
    ensures Distinct(Stack(log))
    ensures forall e :: e in Stack(log) ==> LatestStore(log, e.key) == Some(e)
  {
    if log != [] {
      var front := log[..|log| - 1];
      StackHoldsLatest(front);
      match log[|log| - 1]
      case Stored(e) => PutKeepsDistinct(Stack(front), e);
      case Used(key) => TouchedMovesToTheEnd(Stack(front), key);
      case Swept(live) => FilterKeepsDistinct(Stack(front), live);
    }
  }

  /** A bounded cache always is a run of the most recently used entries of the unbounded one:
      it differs from it only in what eviction took from the old end. Every entry is the
      latest stored under its key, and both bounds hold. */
  lemma {:induction false} BoundedIsRecentPartOfStack<K, V>(log: seq<Access<K, V>>, bounds: Bounds)
    requires Genuine(log, bounds)
    ensures IsSuffix(Bounded(log, bounds), Stack(log))
    ensures Fits(Bounded(log, bounds), bounds) && Distinct(Bounded(log, bounds))
    ensures forall e :: e in Bounded(log, bounds) ==> LatestStore(log, e.key) == Some(e)
  {
    StackHoldsLatest(log);
    if log != [] {
      var front := log[..|log| - 1];
      BoundedIsRecentPartOfStack(front, bounds);
      StackHoldsLatest(front);
      AccessKeepsSuffix(Bounded(front, bounds), Stack(front), log, bounds);
      SuffixKeepsDistinct(Bounded(log, bounds), Stack(log));
    }
  }

  lemma AccessKeepsSuffix<K, V>(cache: seq<Entry<K, V>>, stack: seq<Entry<K, V>>, log: seq<Access<K, V>>, bounds: Bounds)
    requires log != [] && Genuine(log, bounds)
    requires cache == Bounded(log[..|log| - 1], bounds) && stack == Stack(log[..|log| - 1])
    requires IsSuffix(cache, stack) && Distinct(stack) && Fits(cache, bounds)
    ensures IsSuffix(Bounded(log, bounds), Stack(log)) && Fits(Bounded(log, bounds), bounds)
  {
    SuffixKeepsDistinct(cache, stack);
    match log[|log| - 1]
    case Stored(e) =>
      FilterKeepsSuffix(cache, stack, (x: Entry<K, V>) => x.key != e.key);
      SuffixOfBoth(Others(cache, e.key), Others(stack, e.key), [e]);
      TrimmedIsLongestFit(Placed(cache, e), bounds);
      SuffixTrans(Trimmed(Placed(cache, e), bounds), Placed(cache, e), Placed(stack, e));
    case Used(key) =>
      TouchingKeepsSuffix(cache, stack, key);
      TouchedMovesToTheEnd(cache, key);
    case Swept(live) =>
      FilterKeepsSuffix(cache, stack, live);
      FilterKeepsDistinct(cache, live);
  }

  /** One more access, in terms of the state the log has led to. */
  lemma LogGrows<K, V>(log: seq<Access<K, V>>, access: Access<K, V>, bounds: Bounds)
    ensures Bounded(log + [access], bounds) == After(Bounded(log, bounds), access, bounds)
    ensures Genuine(log, bounds) ==>
              (Genuine(log + [access], bounds) <==> Possible(Bounded(log, bounds), access, bounds))
  {
    assert (log + [access])[..|log|] == log;
  }
}
