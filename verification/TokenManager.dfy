/** The token manager: health, refresh, and access transactions whose callbacks die with them. */
module TokenManagers {
  import opened Common
  import opened TokenDocuments
  import opened TokenSharing
  import opened TokenFiles

  datatype ManagerState =
    | Uninitialized | Ready | Refreshing | Missing | Corrupt | Expired | Revoked
    | ReauthorizationRequired | LockTimedOut | RefreshFailed | PersistenceFailed

  datatype Failure =
    | TokenMissing | TokenCorrupt | TokenExpired | LockTimeout | Persistence
    | RefreshError | TokenRevoked | Reauthorization | CallbackScope

  datatype Result<T> = Ok(value: T) | Err(error: Failure)

  datatype LockOutcome = Acquired | TimedOut | Unavailable

  datatype CallbackResult = Returns(value: Value) | SaysRevoked | SaysReauthorize | Raises

  /** The health a failure that has no state of its own leaves behind. */
  function FailureState(error: Failure): ManagerState {
    match error
    case TokenMissing => Missing
    case TokenExpired => Expired
    case LockTimeout => LockTimedOut
    case Persistence => PersistenceFailed
    case _ => Corrupt
  }

  function LockFailure(lock: LockOutcome): Option<Failure> {
    match lock
    case Acquired => None
    case TimedOut => Some(LockTimeout)
    case Unavailable => Some(Persistence)
  }

  /** The document a transaction starts from. */
  function Loaded(target: Option<Contents>, now: real, ttl: real): Result<Value> {
    if target.None? then Err(TokenMissing)
    else if target.value.Torn? || !ValidDocument(target.value.value) then Err(TokenCorrupt)
    else if now >= CreatedAt(target.value.value) + ttl then Err(TokenExpired)
    else Ok(target.value.value)
  }

  /** One refresh: its result, the health it leaves, and what the path then holds. */
  datatype Refreshed = Refreshed(result: Result<Value>, health: ManagerState, target: Option<Contents>)

  function RefreshOutcome(
    target: Option<Contents>, lock: LockOutcome, now: real, ttl: real,
    callback: Value -> CallbackResult, fault: Fault): Refreshed
  {
    if LockFailure(lock).Some? then
      Refreshed(Err(LockFailure(lock).value), FailureState(LockFailure(lock).value), target)
    else if Loaded(target, now, ttl).Err? then
      Refreshed(Err(Loaded(target, now, ttl).error), FailureState(Loaded(target, now, ttl).error), target)
    else
      match callback(Loaded(target, now, ttl).value)
      case SaysRevoked => Refreshed(Err(TokenRevoked), Revoked, target)
      case SaysReauthorize => Refreshed(Err(Reauthorization), ReauthorizationRequired, target)
      case Raises => Refreshed(Err(RefreshError), RefreshFailed, target)
      case Returns(value) =>
        if !ValidDocument(value) then Refreshed(Err(RefreshError), RefreshFailed, target)
        else if !fault.NoFault? then
          Refreshed(Err(Persistence), PersistenceFailed, if Replaces(value, fault) then Some(Complete(value)) else target)
        else Refreshed(Ok(value), Ready, Some(Complete(value)))
  }

  /** A refresh never ends in the refreshing state; it succeeds exactly into Ready, with the
      returned document on disk, computed from a document still inside its lifetime. */
  lemma RefreshSettles(
    target: Option<Contents>, lock: LockOutcome, now: real, ttl: real,
    callback: Value -> CallbackResult, fault: Fault)
    ensures var r := RefreshOutcome(target, lock, now, ttl, callback, fault);
            && !r.health.Refreshing? && !r.health.Uninitialized?
            && (r.result.Ok? <==> r.health.Ready?)
            && (r.result.Ok? ==>
                  && lock.Acquired?
                  && target.Some? && target.value.Complete? && ValidDocument(target.value.value)
                  && now < CreatedAt(target.value.value) + ttl
                  && callback(target.value.value) == Returns(r.result.value)
                  && ValidDocument(r.result.value)
                  && r.target == Some(Complete(r.result.value)))
  {
  }

  /** A failed refresh commits nothing, except in one place: when the rename has happened and
      only the directory sync failed. Then the error is raised although the new document is
      at the path. */
  lemma FailedRefreshCommitsOnlyPastTheRename(
    target: Option<Contents>, lock: LockOutcome, now: real, ttl: real,
    callback: Value -> CallbackResult, fault: Fault)
    requires RefreshOutcome(target, lock, now, ttl, callback, fault).result.Err?
    ensures var r := RefreshOutcome(target, lock, now, ttl, callback, fault);
            (r.target != target <==>
               && fault.DirectorySyncFails? && lock.Acquired? && Loaded(target, now, ttl).Ok?
               && callback(Loaded(target, now, ttl).value).Returns?
               && ValidDocument(callback(Loaded(target, now, ttl).value).value)
               && Some(Complete(callback(Loaded(target, now, ttl).value).value)) != target)
  {
  }

  function SampleDocument(access: string): Value {
    Object([("creation_timestamp", Number(1.0)),
            ("token", Object([("access_token", Text(access)), ("refresh_token", Text("r"))]))])
  }

  lemma SampleIsValid(access: string)
    requires access != ""
    ensures ValidDocument(SampleDocument(access)) && CreatedAt(SampleDocument(access)) == 1.0
  {
    var payload := [("access_token", Text(access)), ("refresh_token", Text("r"))];
    var fields := [("creation_timestamp", Number(1.0)), ("token", Object(payload))];
    assert payload[..1] == [("access_token", Text(access))];
    assert Lookup(payload[..1], "access_token") == Some(Text(access));
    assert fields[..1] == [("creation_timestamp", Number(1.0))];
    assert Lookup(fields[..1], "creation_timestamp") == Some(Number(1.0));
  }

  /** The exception above is real: here is a failing refresh that changes the file. */
  lemma FailedRefreshMayCommit()
    ensures var before := Some(Complete(SampleDocument("a")));
            var r := RefreshOutcome(before, Acquired, 0.0, 1.0, (_: Value) => Returns(SampleDocument("b")), DirectorySyncFails);
            r.result == Err(Persistence) && r.target != before
  {
    SampleIsValid("a");
    SampleIsValid("b");
    assert "a" != "b";
    var a, b := SampleDocument("a"), SampleDocument("b");
    assert a.fields[1].1.fields[0].1 == Text("a") && b.fields[1].1.fields[0].1 == Text("b");
  }

  // ---------------------------------------------------------------------------------------
  // Access transactions.
  // ---------------------------------------------------------------------------------------

  /** What client code does with its two callbacks. */
  datatype Access = ReadToken | WriteToken(value: Value, fault: Fault)

  /** The state the callbacks share: open or closed, the current document, health and path. */
  datatype Scope = Scope(active: bool, current: Option<Value>, health: ManagerState, target: Option<Contents>)

  function ScopeRead(s: Scope): Result<Value> {
    if s.active && s.current.Some? then Ok(s.current.value) else Err(CallbackScope)
  }

  function ScopeWrite(s: Scope, value: Value, fault: Fault): (Scope, Option<Failure>) {
    if !s.active then (s, Some(CallbackScope))
    else if !ValidDocument(value) then (s.(health := RefreshFailed), Some(RefreshError))
    else if !fault.NoFault? then
      (s.(health := PersistenceFailed, target := if Replaces(value, fault) then Some(Complete(value)) else s.target),
       Some(Persistence))
    else (s.(current := Some(value), health := Ready, target := Some(Complete(value))), None)
  }

  function ScopeClose(s: Scope): Scope {
    s.(active := false, current := None)
  }

  /** Performs one access; reads leave the state alone. */
  function Perform(s: Scope, access: Access): Scope {
    match access
    case ReadToken => s
    case WriteToken(value, fault) => ScopeWrite(s, value, fault).0
  }

  /** What the client is told: the document of a read, the document a write has made current,
      or the error that is raised. */
  function AnswerTo(s: Scope, access: Access): Result<Value> {
    match access
    case ReadToken => ScopeRead(s)
    case WriteToken(value, fault) =>
      var error := ScopeWrite(s, value, fault).1;
      if error.Some? then Err(error.value) else Ok(value)
  }

  function PerformAll(s: Scope, script: seq<Access>): Scope {
    if script == [] then s else Perform(PerformAll(s, script[..|script| - 1]), script[|script| - 1])
  }

  /** The write returned normally. */
  predicate Succeeds(access: Access) {
    access.WriteToken? && ValidDocument(access.value) && access.fault.NoFault?
  }

  function LastWritten(script: seq<Access>, initial: Value): Value {
    if script == [] then initial
    else if Succeeds(script[|script| - 1]) then script[|script| - 1].value
    else LastWritten(script[..|script| - 1], initial)
  }

  /** Inside its transaction a read returns the last document whose write returned normally,
      whatever failed in between; and no sequence of accesses ends in the refreshing state. */
  lemma {:induction false} ReadsSeeTheLastWrite(s: Scope, script: seq<Access>)
    requires s.active && s.current.Some? && !s.health.Refreshing?
    ensures ScopeRead(PerformAll(s, script)) == Ok(LastWritten(script, s.current.value))
    ensures PerformAll(s, script).active && !PerformAll(s, script).health.Refreshing?
  {
    if script != [] {
      ReadsSeeTheLastWrite(s, script[..|script| - 1]);
    }
  }

  /** The write puts its document on disk, reported as a success or not. */
  predicate ReplacesDisk(access: Access) {
    access.WriteToken? && ValidDocument(access.value) && (access.fault.NoFault? || access.fault.DirectorySyncFails?)
  }

  /** Access `k` puts a document on disk that the client does not get to know of: its directory
      sync fails, it is not what reads gave before, and no later write reaches the disk. */
  ghost predicate PartsFromDisk(script: seq<Access>, k: nat, initial: Value) {
    && k < |script|
    && ReplacesDisk(script[k]) && script[k].fault.DirectorySyncFails?
    && script[k].value != LastWritten(script[..k], initial)
    && forall j :: k < j < |script| ==> !ReplacesDisk(script[j])
  }

  lemma PartsBefore(script: seq<Access>, front: seq<Access>, initial: Value)
    requires script != [] && !ReplacesDisk(script[|script| - 1]) && front == script[..|script| - 1]
    ensures (exists k: nat :: PartsFromDisk(script, k, initial)) <==> (exists k: nat :: PartsFromDisk(front, k, initial))
  {
    hide LastWritten;
    var n := |script| - 1;
    forall k: nat | k < n
      ensures PartsFromDisk(script, k, initial) <==> PartsFromDisk(front, k, initial)
    {
      assert front[..k] == script[..k];
      assert forall j :: 0 <= j < n ==> front[j] == script[j];
    }
    if k: nat :| PartsFromDisk(script, k, initial) {
      assert k < n;
      assert PartsFromDisk(front, k, initial);
    }
    if k: nat :| PartsFromDisk(front, k, initial) {
      assert PartsFromDisk(script, k, initial);
    }
  }

  lemma PartsAtLast(script: seq<Access>, initial: Value)
    requires script != [] && ReplacesDisk(script[|script| - 1])
    ensures (exists k: nat :: PartsFromDisk(script, k, initial))
       <==> (script[|script| - 1].fault.DirectorySyncFails?
             && script[|script| - 1].value != LastWritten(script[..|script| - 1], initial))
  {
    hide LastWritten, ValidDocument;
    var n := |script| - 1;
    if k: nat :| PartsFromDisk(script, k, initial) {
      assert k == n;
    }
    if script[n].fault.DirectorySyncFails? && script[n].value != LastWritten(script[..n], initial) {
      assert PartsFromDisk(script, n, initial);
    }
  }

  lemma ReplacesWithoutFault(fault: Fault)
    ensures forall value :: ValidDocument(value) && fault.NoFault? ==> Replaces(value, fault)
  {
    forall value | ValidDocument(value) && fault.NoFault?
      ensures Replaces(value, fault)
    {
      ValidReplaces(value, fault);
    }
  }

  lemma ValidReplaces(value: Value, fault: Fault)
    requires ValidDocument(value)
    ensures Replaces(value, fault) <==> fault.NoFault? || fault.DirectorySyncFails?
  {
    assert Serializable(value);
  }

  lemma LoadedIsThere(target: Option<Contents>, now: real, ttl: real)
    ensures Loaded(target, now, ttl).Ok? ==>
              && target == Some(Complete(Loaded(target, now, ttl).value)) && ValidDocument(Loaded(target, now, ttl).value)
              && now < CreatedAt(Loaded(target, now, ttl).value) + ttl
  {
  }

  /** What a read gives differs from what is on disk if and only if some write lost its
      directory sync over a document other than the one it wrote, and no write since then
      reached the disk. */
  lemma {:induction false} ReadsMissTheDiskIff(s: Scope, script: seq<Access>)
    requires s.active && s.current.Some? && s.target == Some(Complete(s.current.value)) && !s.health.Refreshing?
    ensures var r := PerformAll(s, script);
            && ScopeRead(r).Ok?
            && (r.target != Some(Complete(ScopeRead(r).value))
                <==> exists k: nat :: PartsFromDisk(script, k, s.current.value))
  {
    hide ValidDocument, PartsFromDisk, Replaces;
    ReadsSeeTheLastWrite(s, script);
    if script == [] {
      NothingParts(s.current.value);
    } else {
      var n := |script| - 1;
      ReadsMissTheDiskIff(s, script[..n]);
      ReadsSeeTheLastWrite(s, script[..n]);
      if script[n].WriteToken? && ValidDocument(script[n].value) {
        ValidReplaces(script[n].value, script[n].fault);
      }
      if ReplacesDisk(script[n]) {
        PartsAtLast(script, s.current.value);
      } else {
        PartsBefore(script, script[..n], s.current.value);
      }
    }
  }

  lemma NothingParts(initial: Value)
    ensures !exists k: nat :: PartsFromDisk([], k, initial)
  {
  }

  /** The two can differ: after a write whose directory sync failed, the client still reads the
      old document although the new one is on disk. */
  lemma ReadsMayMissTheDisk()
    ensures var a, b := SampleDocument("a"), SampleDocument("b");
            var r := PerformAll(Scope(true, Some(a), Ready, Some(Complete(a))), [WriteToken(b, DirectorySyncFails)]);
            ScopeRead(r) == Ok(a) && r.target == Some(Complete(b)) && a != b
  {
    SampleIsValid("a");
    SampleIsValid("b");
    assert "a" != "b";
    var a, b := SampleDocument("a"), SampleDocument("b");
    assert a.fields[1].1.fields[0].1 == Text("a") && b.fields[1].1.fields[0].1 == Text("b");
    var s := Scope(true, Some(a), Ready, Some(Complete(a)));
    var write := WriteToken(b, DirectorySyncFails);
    assert [write][..0] == [] && PerformAll(s, []) == s;
    assert PerformAll(s, [write]) == Perform(s, write);
  }

  /** After close both callbacks always fail and touch neither the store nor the health. */
  lemma {:induction false} ClosedCallbacksAreInert(s: Scope, script: seq<Access>)
    ensures var c := PerformAll(ScopeClose(s), script);
            && c == ScopeClose(s)
            && ScopeRead(c) == Err(CallbackScope)
            && forall value, fault :: ScopeWrite(c, value, fault) == (c, Some(CallbackScope))
  {
    if script != [] {
      ClosedCallbacksAreInert(s, script[..|script| - 1]);
    }
  }

  // ---------------------------------------------------------------------------------------
  // Every outcome, case by case, by what the documents contain.
  // ---------------------------------------------------------------------------------------

  /** The path holds this token document, still inside its lifetime. */
  ghost predicate Holds(target: Option<Contents>, token: Value, now: real, ttl: real) {
    target == Some(Complete(token)) && exists created :: IsTokenOf(token, created) && now < created + ttl
  }

  /** Why there is no document to start from, and the health that leaves. */
  ghost predicate Refused(target: Option<Contents>, lock: LockOutcome, now: real, ttl: real, error: Failure, health: ManagerState) {
    match lock
    case TimedOut => error == LockTimeout && health == LockTimedOut
    case Unavailable => error == Persistence && health == PersistenceFailed
    case Acquired =>
      match target
      case None => error == TokenMissing && health == Missing
      case Some(Torn) => error == TokenCorrupt && health == Corrupt
      case Some(Complete(token)) =>
        if IsToken(token)
        then error == TokenExpired && health == Expired && forall created :: IsTokenOf(token, created) ==> now >= created + ttl
        else error == TokenCorrupt && health == Corrupt
  }

  /** A load gives the document at the path, or says why it does not. */
  ghost predicate LoadAnswers(target: Option<Contents>, lock: LockOutcome, now: real, ttl: real, r: Result<Value>, health: ManagerState) {
    match r
    case Ok(token) => lock.Acquired? && Holds(target, token, now, ttl) && health == Ready
    case Err(error) => Refused(target, lock, now, ttl, error, health)
  }

  /** A document handed over to be written: only a token document gets to the path, and it does
      exactly if nothing before the end of the rename fails. */
  ghost predicate WriteAnswers(value: Value, fault: Fault, before: Option<Contents>, error: Option<Failure>, health: ManagerState, after: Option<Contents>) {
    if !IsToken(value) then error == Some(RefreshError) && health == RefreshFailed && after == before
    else
      match fault
      case NoFault => error == None && health == Ready && after == Some(Complete(value))
      case DirectorySyncFails => error == Some(Persistence) && health == PersistenceFailed && after == Some(Complete(value))
      case _ => error == Some(Persistence) && health == PersistenceFailed && after == before
  }

  /** A refresh: refused like a load, or answered by its callback, whose document is written. */
  ghost predicate RefreshAnswers(
    before: Option<Contents>, lock: LockOutcome, now: real, ttl: real, callback: Value -> CallbackResult, fault: Fault, r: Refreshed)
  {
    if lock.Acquired? && exists token :: Holds(before, token, now, ttl) then
      match callback(before.value.value)
      case SaysRevoked => r == Refreshed(Err(TokenRevoked), Revoked, before)
      case SaysReauthorize => r == Refreshed(Err(Reauthorization), ReauthorizationRequired, before)
      case Raises => r == Refreshed(Err(RefreshError), RefreshFailed, before)
      case Returns(value) =>
        && WriteAnswers(value, fault, before, if r.result.Ok? then None else Some(r.result.error), r.health, r.target)
        && (r.result.Ok? ==> r.result.value == value)
    else r.result.Err? && Refused(before, lock, now, ttl, r.result.error, r.health) && r.target == before
  }

  lemma HoldsIff(target: Option<Contents>, now: real, ttl: real)
    ensures forall token :: Holds(target, token, now, ttl) <==> Loaded(target, now, ttl) == Ok(token)
  {
    hide ValidDocument, CreatedAt, IsTokenOf;
    forall token
      ensures Holds(target, token, now, ttl) <==> Loaded(target, now, ttl) == Ok(token)
    {
      ValidIff(token);
    }
  }

  lemma LoadSettles(target: Option<Contents>, lock: LockOutcome, now: real, ttl: real)
    ensures var r := if LockFailure(lock).Some? then Err(LockFailure(lock).value) else Loaded(target, now, ttl);
            LoadAnswers(target, lock, now, ttl, r, if r.Ok? then Ready else FailureState(r.error))
  {
    hide ValidDocument, CreatedAt, IsTokenOf, Holds;
    HoldsIff(target, now, ttl);
    if target.Some? && target.value.Complete? {
      ValidIff(target.value.value);
    }
  }

  lemma OfferSettles(value: Value, fault: Fault)
    ensures ValidDocument(value) <==> IsToken(value)
    ensures ValidDocument(value) ==> (Replaces(value, fault) <==> fault.NoFault? || fault.DirectorySyncFails?)
  {
    hide ValidDocument, Replaces;
    ValidIff(value);
    if ValidDocument(value) {
      ValidReplaces(value, fault);
    }
  }

  /** The refresh's specification, case by case. */
  lemma RefreshIsAnswered(
    target: Option<Contents>, lock: LockOutcome, now: real, ttl: real, callback: Value -> CallbackResult, fault: Fault)
    ensures RefreshAnswers(target, lock, now, ttl, callback, fault, RefreshOutcome(target, lock, now, ttl, callback, fault))
  {
    hide ValidDocument, IsToken, Holds, Loaded, Replaces;
    HoldsIff(target, now, ttl);
    LoadSettles(target, lock, now, ttl);
    LoadedIsThere(target, now, ttl);
    if Loaded(target, now, ttl).Ok? {
      var answer := callback(Loaded(target, now, ttl).value);
      if answer.Returns? {
        OfferSettles(answer.value, fault);
      }
    }
  }

  lemma WriteIsAnswered(s: Scope, value: Value, fault: Fault)
    requires s.active
    ensures var (after, error) := ScopeWrite(s, value, fault);
            && WriteAnswers(value, fault, s.target, error, after.health, after.target)
            && after.active && after.current == if error.None? then Some(value) else s.current
  {
    hide ValidDocument, IsToken, Replaces;
    OfferSettles(value, fault);
  }

  /** The access is a write that puts a token document at the path, reported or not. */
  ghost predicate Lands(access: Access) {
    access.WriteToken? && IsToken(access.value) && (access.fault == NoFault || access.fault == DirectorySyncFails)
  }

  ghost predicate Returned(access: Access) {
    access.WriteToken? && IsToken(access.value) && access.fault == NoFault
  }

  /** What each access of a script is worth, one by one. */
  ghost function Each<R>(script: seq<Access>, f: Access -> R): (r: seq<R>)
    ensures |r| == |script|
    ensures forall i :: 0 <= i < |script| ==> r[i] == f(script[i])
  {
    seq(|script|, i requires 0 <= i < |script| => f(script[i]))
  }

  ghost predicate LastOf(marks: seq<bool>, k: nat) {
    k < |marks| && marks[k] && forall j :: k < j < |marks| ==> !marks[j]
  }

  /** The last of the marked values is left, or without a mark what was there. */
  ghost predicate IsLeft<R>(was: R, marks: seq<bool>, values: seq<R>, now: R) {
    && |marks| == |values|
    && (forall k: nat :: LastOf(marks, k) ==> now == values[k])
    && ((forall k :: 0 <= k < |marks| ==> !marks[k]) ==> now == was)
  }

  lemma LeftOneMore<R>(was: R, marks: seq<bool>, values: seq<R>, before: R, mark: bool, value: R)
    requires IsLeft(was, marks, values, before)
    ensures IsLeft(was, marks + [mark], values + [value], if mark then value else before)
  {
    var more := marks + [mark];
    assert forall k :: 0 <= k < |marks| ==> more[k] == marks[k];
    assert more[|marks|] == mark;
    forall k: nat | LastOf(more, k)
      ensures if k == |marks| then mark else !mark && LastOf(marks, k)
    {
    }
  }

  /** The document of a write. */
  function Brings(access: Access): Option<Value> {
    match access
    case ReadToken => None
    case WriteToken(value, _) => Some(value)
  }

  function Puts(access: Access): Option<Contents> {
    match access
    case ReadToken => None
    case WriteToken(value, _) => Some(Complete(value))
  }

  ghost function HealthAfter(access: Access): ManagerState {
    if Returned(access) then Ready else if access.WriteToken? && IsToken(access.value) then PersistenceFailed else RefreshFailed
  }

  ghost predicate PathIsLeft(was: Option<Contents>, script: seq<Access>, target: Option<Contents>) {
    IsLeft(was, Each(script, (a: Access) => Lands(a)), Each(script, (a: Access) => Puts(a)), target)
  }

  ghost predicate CurrentIsLeft(was: Option<Value>, script: seq<Access>, current: Option<Value>) {
    IsLeft(was, Each(script, (a: Access) => Returned(a)), Each(script, (a: Access) => Brings(a)), current)
  }

  ghost predicate HealthIsLeft(was: ManagerState, script: seq<Access>, health: ManagerState) {
    IsLeft(was, Each(script, (a: Access) => a.WriteToken?), Each(script, (a: Access) => HealthAfter(a)), health)
  }

  /** What a script leaves behind: at the path the document of its last write that landed, to be
      read that of its last write that returned, and the health of its last write. */
  ghost predicate ScriptLeaves(s: Scope, script: seq<Access>, after: Scope) {
    && after.active && after.current.Some?
    && PathIsLeft(s.target, script, after.target)
    && CurrentIsLeft(s.current, script, after.current)
    && HealthIsLeft(s.health, script, after.health)
  }

  lemma EachOneMore<R>(script: seq<Access>, f: Access -> R)
    requires script != []
    ensures Each(script, f) == Each(script[..|script| - 1], f) + [f(script[|script| - 1])]
  {
  }

  lemma PathOneMore(was: Option<Contents>, script: seq<Access>, before: Option<Contents>)
    requires script != [] && PathIsLeft(was, script[..|script| - 1], before)
    ensures var last := script[|script| - 1];
            PathIsLeft(was, script, if Lands(last) then Puts(last) else before)
  {
    hide Lands, Puts, IsLeft, Each;
    var front, last := script[..|script| - 1], script[|script| - 1];
    EachOneMore(script, (a: Access) => Lands(a));
    EachOneMore(script, (a: Access) => Puts(a));
    LeftOneMore(was, Each(front, (a: Access) => Lands(a)), Each(front, (a: Access) => Puts(a)), before, Lands(last), Puts(last));
  }

  lemma CurrentOneMore(was: Option<Value>, script: seq<Access>, before: Option<Value>)
    requires script != [] && CurrentIsLeft(was, script[..|script| - 1], before)
    ensures var last := script[|script| - 1];
            CurrentIsLeft(was, script, if Returned(last) then Brings(last) else before)
  {
    hide Returned, Brings, IsLeft, Each;
    var front, last := script[..|script| - 1], script[|script| - 1];
    EachOneMore(script, (a: Access) => Returned(a));
    EachOneMore(script, (a: Access) => Brings(a));
    LeftOneMore(was, Each(front, (a: Access) => Returned(a)), Each(front, (a: Access) => Brings(a)), before, Returned(last), Brings(last));
  }

  lemma HealthOneMore(was: ManagerState, script: seq<Access>, before: ManagerState)
    requires script != [] && HealthIsLeft(was, script[..|script| - 1], before)
    ensures var last := script[|script| - 1];
            HealthIsLeft(was, script, if last.WriteToken? then HealthAfter(last) else before)
  {
    hide HealthAfter, IsLeft, Each;
    var front, last := script[..|script| - 1], script[|script| - 1];
    EachOneMore(script, (a: Access) => a.WriteToken?);
    EachOneMore(script, (a: Access) => HealthAfter(a));
    LeftOneMore(was, Each(front, (a: Access) => a.WriteToken?), Each(front, (a: Access) => HealthAfter(a)), before, last.WriteToken?, HealthAfter(last));
  }

  /** A script of accesses, by what its documents contain. */
  lemma {:induction false} ScriptSettles(s: Scope, script: seq<Access>)
    requires s.active && s.current.Some?
    ensures ScriptLeaves(s, script, PerformAll(s, script))
  {
    if script != [] {
      hide IsToken, PathIsLeft, CurrentIsLeft, HealthIsLeft, ScopeWrite;
      var n := |script| - 1;
      ScriptSettles(s, script[..n]);
      var before := PerformAll(s, script[..n]);
      PathOneMore(s.target, script, before.target);
      CurrentOneMore(s.current, script, before.current);
      HealthOneMore(s.health, script, before.health);
      if script[n].WriteToken? {
        WriteIsAnswered(before, script[n].value, script[n].fault);
      }
    }
  }

  /** What client code is told, access by access: a read gives the document of the last write
      that returned before it, a write of anything but a token document is refused, and one that
      any step of writing fails says so. */
  lemma EachAccessIsAnswered(s: Scope, script: seq<Access>, i: nat)
    requires s.active && s.current.Some? && i < |script|
    ensures var answer := AnswerTo(PerformAll(s, script[..i]), script[i]);
            match script[i]
            case ReadToken => answer.Ok? && CurrentIsLeft(s.current, script[..i], Some(answer.value))
            case WriteToken(value, fault) =>
              if !IsToken(value) then answer == Err(RefreshError)
              else if fault == NoFault then answer == Ok(value)
              else answer == Err(Persistence)
  {
    hide IsToken, PathIsLeft, CurrentIsLeft, HealthIsLeft, ScopeWrite, PerformAll;
    ScriptSettles(s, script[..i]);
    if script[i].WriteToken? {
      WriteIsAnswered(PerformAll(s, script[..i]), script[i].value, script[i].fault);
    }
  }

  // ---------------------------------------------------------------------------------------
  // What a manager does to the shared path, as steps of the sharing protocol.
  // ---------------------------------------------------------------------------------------

  /** A client's write: a document that is not valid never gets as far as the file. */
  function OfferedSteps(who: nat, value: Value, fault: Fault): seq<Step> {
    if ValidDocument(value) then WriteSteps(who, value, fault) else []
  }

  /** A refresh between taking the lock and releasing it. */
  function RefreshSteps(
    who: nat, target: Option<Contents>, now: real, ttl: real, callback: Value -> CallbackResult, fault: Fault): seq<Step>
  {
    if Loaded(target, now, ttl).Err? then []
    else
      [LoadDocument(who), Give(who)]
      + match callback(Loaded(target, now, ttl).value)
        case Returns(value) => OfferedSteps(who, value, fault)
        case _ => []
  }

  function AccessSteps(who: nat, access: Access): seq<Step> {
    match access
    case ReadToken => [Give(who)]
    case WriteToken(value, fault) => OfferedSteps(who, value, fault)
  }

  function ScriptSteps(who: nat, script: seq<Access>): seq<Step> {
    if script == [] then []
    else ScriptSteps(who, script[..|script| - 1]) + AccessSteps(who, script[|script| - 1])
  }

  function LoadSteps(who: nat, target: Option<Contents>, now: real, ttl: real): seq<Step> {
    if Loaded(target, now, ttl).Err? then [] else [LoadDocument(who)]
  }

  /** An access transaction between taking the lock and releasing it. */
  function TransactionSteps(who: nat, target: Option<Contents>, now: real, ttl: real, script: seq<Access>): seq<Step> {
    if Loaded(target, now, ttl).Err? then [] else [LoadDocument(who)] + ScriptSteps(who, script)
  }

  /** The lock interval around it; a lock that is not acquired leaves no trace. */
  function Interval(who: nat, lock: LockOutcome, inner: seq<Step>): seq<Step> {
    if lock.Acquired? then [LockThread(who, false), LockFile(who)] + inner + [Leave(who)] else []
  }

  /** Where cancellations reach a coroutine that enters a transaction: while it waits, shielded,
      for the lock; then while it waits for the same outcome without a shield; then while it
      gives the lock back. The later ones matter only after the earlier. */
  datatype Cancellations = Cancellations(shielded: bool, bare: bool, exiting: bool)

  /** What a coroutine cancelled on entry does to the path: the thread it started acquires the
      lock regardless, and only a completed bare wait gives it back. */
  function CancelledSteps(who: nat, lock: LockOutcome, c: Cancellations): seq<Step> {
    if !lock.Acquired? then []
    else [LockThread(who, false), LockFile(who)] + if c.bare then [] else [Leave(who)]
  }

  /** How an access transaction ends: refused, cancelled before it began, or with the answers
      its client code got, which may have raised at the end. */
  datatype Transaction = Rejected(error: Failure) | CancelledEarly | Ended(answers: seq<Result<Value>>, raised: bool)

  class TokenManager {
    const file: TokenFile
    const ttl: real
    const who: nat
    var health: ManagerState

    constructor (file: TokenFile, ttl: real, who: nat)
      ensures this.file == file && this.ttl == ttl && this.who == who && health == Uninitialized
    {
      this.file, this.ttl, this.who, health := file, ttl, who, Uninitialized;
    }

    method Transition(state: ManagerState)
      modifies this`health
      ensures health == state
    {
      health := state;
    }

    /** Entering the lock; a failed acquisition leaves no trace. */
    method Acquire(lock: LockOutcome) returns (failure: Option<Failure>)
      modifies file`steps
      ensures failure == LockFailure(lock)
      ensures file.steps == old(file.steps) + if lock.Acquired? then [LockThread(who, false), LockFile(who)] else []
    {
      failure := LockFailure(lock);
      if failure.None? {
        file.Record(LockThread(who, false));
        file.Record(LockFile(who));
      }
    }

    method LoadFromTransaction(now: real) returns (r: Result<Value>)
      modifies file`steps
      ensures r == Loaded(file.target, now, ttl)
      ensures file.steps == old(file.steps) + LoadSteps(who, file.target, now, ttl)
    {
      var value, missing := file.Read();
      if missing {
        return Err(TokenMissing);
      }
      if value.None? || !ValidDocument(value.value) {
        return Err(TokenCorrupt);
      }
      var expiresAt := CreatedAt(value.value) + ttl;
      if now >= expiresAt {
        return Err(TokenExpired);
      }
      file.Record(LoadDocument(who));
      return Ok(value.value);
    }

    method Load(lock: LockOutcome, now: real) returns (r: Result<Value>)
      modifies this, file`steps
      ensures r == if LockFailure(lock).Some? then Err(LockFailure(lock).value) else Loaded(file.target, now, ttl)
      ensures LoadAnswers(file.target, lock, now, ttl, r, health)
      ensures r.Ok? ==> health.Ready? && ValidDocument(r.value) && now < CreatedAt(r.value) + ttl
      ensures r.Err? ==> health == FailureState(r.error)
      ensures !health.Refreshing?
      ensures file.steps == old(file.steps) + Interval(who, lock, LoadSteps(who, file.target, now, ttl))
    {
      hide ValidDocument, LoadAnswers;
      LoadSettles(file.target, lock, now, ttl);
      var failure := Acquire(lock);
      if failure.Some? {
        Transition(FailureState(failure.value));
        return Err(failure.value);
      }
      r := LoadFromTransaction(now);
      file.Record(Leave(who));
      if r.Err? {
        Transition(FailureState(r.error));
      } else {
        LoadedIsThere(file.target, now, ttl);
        Transition(Ready);
      }
    }

    /** The failures whose state is set inside the lock. */
    predicate SetsItsOwnState(error: Failure) {
      error.TokenRevoked? || error.Reauthorization? || error.RefreshError?
    }

    /** The part of a refresh under the lock. */
    method RefreshLocked(now: real, callback: Value -> CallbackResult, fault: Fault) returns (r: Result<Value>)
      modifies this, file
      ensures var outcome := RefreshOutcome(old(file.target), Acquired, now, ttl, callback, fault);
              && r == outcome.result && file.target == outcome.target
              && (r.Err? && SetsItsOwnState(r.error) ==> health == outcome.health)
              && (r.Err? && !SetsItsOwnState(r.error) ==> outcome.health == FailureState(r.error))
              && (r.Ok? ==> outcome.health == Ready)
      ensures file.steps == old(file.steps) + RefreshSteps(who, old(file.target), now, ttl, callback, fault)
    {
      hide ValidDocument, OfferedSteps, Replaces;
      ReplacesWithoutFault(fault);
      var current := LoadFromTransaction(now);
      if current.Err? {
        return current;
      }
      Transition(Refreshing);
      file.Record(Give(who));
      var answer := callback(current.value);
      match answer {
        case SaysRevoked =>
          Transition(Revoked);
          return Err(TokenRevoked);
        case SaysReauthorize =>
          Transition(ReauthorizationRequired);
          return Err(Reauthorization);
        case Raises =>
          Transition(RefreshFailed);
          return Err(RefreshError);
        case Returns(value) => r := WriteRefreshed(value, fault);
      }
    }

    /** What the callback returned is validated and written. */
    method WriteRefreshed(value: Value, fault: Fault) returns (r: Result<Value>)
      modifies this, file
      ensures r == if !ValidDocument(value) then Err(RefreshError) else if fault.NoFault? then Ok(value) else Err(Persistence)
      ensures !ValidDocument(value) ==> health == RefreshFailed
      ensures file.target == if ValidDocument(value) && Replaces(value, fault) then Some(Complete(value)) else old(file.target)
      ensures file.steps == old(file.steps) + OfferedSteps(who, value, fault)
    {
      hide WriteSteps;
      if !ValidDocument(value) {
        Transition(RefreshFailed);
        return Err(RefreshError);
      }
      ValidReplaces(value, fault);
      var failed := file.Write(who, value, fault);
      return if failed then Err(Persistence) else Ok(value);
    }

    method Refresh(lock: LockOutcome, now: real, callback: Value -> CallbackResult, fault: Fault) returns (r: Result<Value>)
      modifies this, file
      ensures RefreshAnswers(old(file.target), lock, now, ttl, callback, fault, Refreshed(r, health, file.target))
      ensures Refreshed(r, health, file.target) == RefreshOutcome(old(file.target), lock, now, ttl, callback, fault)
      ensures file.steps == old(file.steps) + Interval(who, lock, RefreshSteps(who, old(file.target), now, ttl, callback, fault))
    {
      hide ValidDocument, WriteSteps, RefreshSteps, Replaces, RefreshAnswers;
      RefreshIsAnswered(file.target, lock, now, ttl, callback, fault);
      var failure := Acquire(lock);
      if failure.Some? {
        Transition(FailureState(failure.value));
        return Err(failure.value);
      }
      r := RefreshLocked(now, callback, fault);
      file.Record(Leave(who));
      if r.Ok? {
        Transition(Ready);
      } else if !SetsItsOwnState(r.error) {
        Transition(FailureState(r.error));
      }
    }

    /** Inside the lock: load, run client code on its two callbacks, close them whether it
        returns or raises. */
    method Transact(now: real, script: seq<Access>, raises: bool) returns (r: Transaction, callbacks: Option<ScopedCallbacks>)
      modifies this, file
      ensures r.Ended? <==> Loaded(old(file.target), now, ttl).Ok?
      ensures !r.Ended? ==>
                && r == Rejected(Loaded(old(file.target), now, ttl).error)
                && callbacks.None? && file.target == old(file.target) && health == FailureState(r.error)
      ensures r.Ended? ==> Answered(r, callbacks, Loaded(old(file.target), now, ttl).value, script, raises)
      ensures r.Ended? ==> fresh(callbacks.value)
      ensures !health.Refreshing?
      ensures file.steps == old(file.steps) + TransactionSteps(who, old(file.target), now, ttl, script)
    {
      hide PerformAll, ScriptSteps, ScopeRead, ValidDocument;
      callbacks := None;
      var current := LoadFromTransaction(now);
      if current.Err? {
        Transition(FailureState(current.error));
        return Rejected(current.error), None;
      }
      Transition(Ready);
      var scoped := new ScopedCallbacks(this, current.value);
      ghost var begun := scoped.View();
      var answers := RunScript(scoped, script);
      ReadsSeeTheLastWrite(begun, script);
      scoped.Close();
      return Ended(answers, raises), Some(scoped);
    }

    /** Client code performs its accesses one after the other. */
    method RunScript(scoped: ScopedCallbacks, script: seq<Access>) returns (answers: seq<Result<Value>>)
      requires scoped.manager == this && scoped.active && scoped.current.Some? && !health.Refreshing?
      modifies this, file, scoped
      ensures scoped.View() == PerformAll(old(scoped.View()), script)
      ensures |answers| == |script|
      ensures forall i :: 0 <= i < |script| ==> answers[i] == AnswerTo(PerformAll(old(scoped.View()), script[..i]), script[i])
      ensures file.steps == old(file.steps) + ScriptSteps(who, script)
    {
      hide ValidDocument, AccessSteps, Perform, AnswerTo, PerformAll, ScriptSteps;
      ghost var begun := scoped.View();
      NothingPerformed(begun, who, script);
      answers := [];
      for i := 0 to |script|
        invariant scoped.View() == PerformAll(begun, script[..i])
        invariant |answers| == i
        invariant forall k :: 0 <= k < i ==> answers[k] == AnswerTo(PerformAll(begun, script[..k]), script[k])
        invariant file.steps == old(file.steps) + ScriptSteps(who, script[..i])
      {
        StaysOpen(begun, script[..i]);
        ScriptGrows(begun, who, script, i);
        var answer := RunAccess(scoped, script[i]);
        answers := answers + [answer];
      }
      assert script[..|script|] == script;
    }

    lemma StaysOpen(begun: Scope, script: seq<Access>)
      requires begun.active && begun.current.Some? && !begun.health.Refreshing?
      ensures PerformAll(begun, script).active && PerformAll(begun, script).current.Some?
    {
      hide PerformAll, LastWritten;
      ReadsSeeTheLastWrite(begun, script);
    }

    lemma NothingPerformed(begun: Scope, who: nat, script: seq<Access>)
      ensures PerformAll(begun, script[..0]) == begun && ScriptSteps(who, script[..0]) == []
    {
    }

    lemma ScriptGrows(begun: Scope, who: nat, script: seq<Access>, i: nat)
      requires i < |script|
      ensures PerformAll(begun, script[..i + 1]) == Perform(PerformAll(begun, script[..i]), script[i])
      ensures ScriptSteps(who, script[..i + 1]) == ScriptSteps(who, script[..i]) + AccessSteps(who, script[i])
    {
      assert script[..i + 1][..i] == script[..i];
    }

    method RunAccess(scoped: ScopedCallbacks, access: Access) returns (answer: Result<Value>)
      requires scoped.manager == this && scoped.active && scoped.current.Some?
      modifies this, file, scoped
      ensures scoped.View() == Perform(old(scoped.View()), access)
      ensures answer == AnswerTo(old(scoped.View()), access)
      ensures file.steps == old(file.steps) + AccessSteps(who, access)
    {
      hide ValidDocument, OfferedSteps;
      match access {
        case ReadToken => answer := scoped.Read();
        case WriteToken(value, fault) =>
          var error := scoped.Write(value, fault);
          answer := if error.Some? then Err(error.value) else Ok(value);
      }
    }

    /** What client code was answered, and that its callbacks are closed over exactly its writes. */
    ghost predicate Answered(r: Transaction, callbacks: Option<ScopedCallbacks>, current: Value, script: seq<Access>, raises: bool)
      requires r.Ended?
      reads this, file, if callbacks.Some? then {callbacks.value, callbacks.value.manager, callbacks.value.manager.file} else {}
    {
      var begun := Scope(true, Some(current), Ready, Some(Complete(current)));
      && callbacks.Some? && callbacks.value.manager == this
      && callbacks.value.View() == ScopeClose(PerformAll(begun, script))
      && |r.answers| == |script| && r.raised == raises
      && forall i :: 0 <= i < |script| ==> r.answers[i] == AnswerTo(PerformAll(begun, script[..i]), script[i])
    }

    /** Client code under one lock. It performs `script` and then returns, or raises anything at
        all; what it raises does not touch the health its last write left. */
    method RunAccessTransaction(lock: LockOutcome, now: real, script: seq<Access>, raises: bool)
      returns (r: Transaction, callbacks: Option<ScopedCallbacks>)
      modifies this, file
      ensures r.Ended? <==> lock.Acquired? && Loaded(old(file.target), now, ttl).Ok?
      ensures !r.Ended? ==>
                && r.Rejected?
                && (lock.Acquired? ==> r.error == Loaded(old(file.target), now, ttl).error)
                && (!lock.Acquired? ==> Some(r.error) == LockFailure(lock))
                && callbacks.None? && file.target == old(file.target) && health == FailureState(r.error)
      ensures r.Ended? ==>
                && Answered(r, callbacks, Loaded(old(file.target), now, ttl).value, script, raises)
                && Holds(old(file.target), Loaded(old(file.target), now, ttl).value, now, ttl)
      ensures r.Rejected? ==> Refused(old(file.target), lock, now, ttl, r.error, health)
      ensures !health.Refreshing?
      ensures file.steps == old(file.steps) + Interval(who, lock, TransactionSteps(who, old(file.target), now, ttl, script))
    {
      hide PerformAll, ScopeRead, ValidDocument, TransactionSteps, Refused, Holds;
      LoadSettles(file.target, lock, now, ttl);
      HoldsIff(file.target, now, ttl);
      var failure := Acquire(lock);
      if failure.Some? {
        Transition(FailureState(failure.value));
        return Rejected(failure.value), None;
      }
      r, callbacks := Transact(now, script, raises);
      file.Record(Leave(who));
    }

    /** The same for a coroutine. A cancellation while the lock is awaited runs no client code
        and leaves file and health alone. It still waits for the outcome, now without a shield,
        and gives an acquired lock back, unless a further cancellation ends that bare wait: then
        nobody ever does. A cancellation while giving it back changes nothing, and one that
        arrives later still is something the client code raises. */
    method RunAccessTransactionAsync(lock: LockOutcome, c: Cancellations, now: real, script: seq<Access>, raises: bool)
      returns (r: Transaction, callbacks: Option<ScopedCallbacks>)
      modifies this, file
      ensures r.CancelledEarly? <==> c.shielded
      ensures c.shielded ==>
                && callbacks.None? && file.target == old(file.target) && health == old(health)
                && file.steps == old(file.steps) + CancelledSteps(who, lock, c)
      ensures !c.shielded ==>
                && (r.Ended? <==> lock.Acquired? && Loaded(old(file.target), now, ttl).Ok?)
                && (r.Ended? ==> Answered(r, callbacks, Loaded(old(file.target), now, ttl).value, script, raises))
                && (r.Ended? ==> Holds(old(file.target), Loaded(old(file.target), now, ttl).value, now, ttl))
                && (r.Rejected? ==> Refused(old(file.target), lock, now, ttl, r.error, health))
                && (!r.Ended? ==> r.Rejected? && file.target == old(file.target) && health == FailureState(r.error))
                && !health.Refreshing?
                && file.steps == old(file.steps) + Interval(who, lock, TransactionSteps(who, old(file.target), now, ttl, script))
    {
      hide PerformAll, ScopeRead, ValidDocument, TransactionSteps, Refused, Holds;
      if !c.shielded {
        r, callbacks := RunAccessTransaction(lock, now, script, raises);
        return;
      }
      callbacks := None;
      // The thread that enters the lock cannot be cancelled and runs on.
      var failure := Acquire(lock);
      if c.bare || failure.Some? {
        return CancelledEarly, None;
      }
      // The exit runs in its own thread to the end, cancelled or not.
      file.Record(Leave(who));
      return CancelledEarly, None;
    }
  }

  class ScopedCallbacks {
    const manager: TokenManager
    var active: bool
    var current: Option<Value>

    ghost function View(): Scope
      reads this, manager, manager.file
    {
      Scope(active, current, manager.health, manager.file.target)
    }

    constructor (manager: TokenManager, current: Value)
      ensures this.manager == manager
      ensures View() == Scope(true, Some(current), manager.health, manager.file.target)
    {
      this.manager, active, this.current := manager, true, Some(current);
    }

    method Read() returns (r: Result<Value>)
      modifies manager.file`steps
      ensures r == ScopeRead(View()) && View() == old(View())
      ensures manager.file.steps == old(manager.file.steps) + if r.Ok? then [Give(manager.who)] else []
    {
      if !active || current.None? {
        return Err(CallbackScope);
      }
      manager.file.Record(Give(manager.who));
      return Ok(current.value);
    }

    method Write(value: Value, fault: Fault) returns (error: Option<Failure>)
      modifies this, manager, manager.file
      ensures (View(), error) == ScopeWrite(old(View()), value, fault)
      ensures old(active) ==>
                && WriteAnswers(value, fault, old(manager.file.target), error, manager.health, manager.file.target)
                && active && current == if error.None? then Some(value) else old(current)
      ensures !old(active) ==> unchanged(this) && unchanged(manager) && unchanged(manager.file)
      ensures old(active) ==> manager.file.steps == old(manager.file.steps) + OfferedSteps(manager.who, value, fault)
    {
      hide ValidDocument, WriteAnswers, Serializable;
      if !active {
        return Some(CallbackScope);
      }
      WriteIsAnswered(View(), value, fault);
      if ValidDocument(value) {
        ValidReplaces(value, fault);
      }
      manager.Transition(Refreshing);
      if !ValidDocument(value) {
        manager.Transition(RefreshFailed);
        return Some(RefreshError);
      }
      var failed := manager.file.Write(manager.who, value, fault);
      if failed {
        manager.Transition(FailureState(Persistence));
        return Some(Persistence);
      }
      current := Some(value);
      manager.Transition(Ready);
      return None;
    }

    method Close()
      modifies this
      ensures View() == ScopeClose(old(View()))
    {
      active := false;
      current := None;
    }
  }
}
