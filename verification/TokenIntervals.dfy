/** A manager's lock intervals inside the shared protocol: whatever everybody else does
    meanwhile, the path ends up as the manager's own specification says. */
module TokenIntervals {
  import opened Common
  import opened TokenDocuments
  import opened TokenSharing
  import opened TokenFiles
  import opened TokenManagers

  // ---------------------------------------------------------------------------------------
  // The steps by themselves.
  // ---------------------------------------------------------------------------------------

  lemma {:induction false} RunBoth(w: World, a: seq<Step>, b: seq<Step>)
    ensures Run(w, a + b) == Run(Run(w, a), b)
  {
    hide Next;
    if b == [] {
      assert a + b == a;
    } else {
      assert (a + b)[..|a + b| - 1] == a + b[..|b| - 1];
      RunBoth(w, a, b[..|b| - 1]);
    }
  }

  lemma RunOne(w: World, step: Step)
    ensures Run(w, [step]) == Next(w, step)
  {
    hide Next;
    assert [step][..0] == [] && Run(w, []) == w;
  }

  lemma RunTwo(w: World, a: Step, b: Step)
    ensures Run(w, [a, b]) == Next(Next(w, a), b)
  {
    hide Next;
    assert [a, b] == [a] + [b];
    RunBoth(w, [a], [b]);
    RunOne(w, a);
    RunOne(Next(w, a), b);
  }

  /** The operation is in a session that holds these documents, and nothing is being written. */
  predicate Rests(w: World, who: nat, current: Value, onDisk: Value) {
    Writes(w, who, current, onDisk, Idle)
  }

  predicate Writes(w: World, who: nat, current: Value, onDisk: Value, write: WritePhase) {
    Enters(w, who) && w.stages[who] == Session(current, onDisk, write) && w.path == Some(Complete(onDisk))
  }

  function WriteEvents(who: nat, given: Value, base: Value, value: Value, fault: Fault): seq<Event> {
    if !ValidDocument(value) || !Replaces(value, fault) then []
    else [Committed(who, given, base, value)] + if fault.NoFault? then [Confirmed(who, value)] else []
  }

  function Given(current: Value, value: Value, fault: Fault): Value {
    if ValidDocument(value) && fault.NoFault? then value else current
  }

  function Written(onDisk: Value, value: Value, fault: Fault): Value {
    if ValidDocument(value) && Replaces(value, fault) then value else onDisk
  }

  lemma OfferRuns(w: World, who: nat, current: Value, onDisk: Value, value: Value)
    requires Rests(w, who, current, onDisk) && ValidDocument(value)
    ensures Writes(Next(w, Offer(who, value)), who, current, onDisk, Pending(value))
    ensures Next(w, Offer(who, value)).log == w.log
  {
    hide ValidDocument;
  }

  lemma PendingRuns(w: World, who: nat, current: Value, onDisk: Value, value: Value)
    requires Writes(w, who, current, onDisk, Pending(value))
    ensures Rests(Next(w, Abandon(who)), who, current, onDisk) && Next(w, Abandon(who)).log == w.log
    ensures Writes(Next(w, Rename(who)), who, current, value, Renamed(value))
    ensures Next(w, Rename(who)).log == w.log + [Committed(who, current, onDisk, value)]
  {
    hide ValidDocument;
  }

  lemma RenamedRuns(w: World, who: nat, current: Value, value: Value)
    requires Writes(w, who, current, value, Renamed(value))
    ensures Rests(Next(w, Sync(who)), who, value, value) && Next(w, Sync(who)).log == w.log + [Confirmed(who, value)]
    ensures Rests(Next(w, LoseSync(who)), who, current, value) && Next(w, LoseSync(who)).log == w.log
  {
    hide ValidDocument;
  }

  lemma WriteRuns(w: World, who: nat, current: Value, onDisk: Value, value: Value, fault: Fault)
    requires Rests(w, who, current, onDisk)
    ensures var r := Run(w, OfferedSteps(who, value, fault));
            && Rests(r, who, Given(current, value, fault), Written(onDisk, value, fault))
            && r.log == w.log + WriteEvents(who, current, onDisk, value, fault)
  {
    hide ValidDocument, Next, Rests, Writes, Run;
    if ValidDocument(value) {
      ValidIsSerializable(value);
      OfferRuns(w, who, current, onDisk, value);
      var offered := Next(w, Offer(who, value));
      PendingRuns(offered, who, current, onDisk, value);
      if !Replaces(value, fault) {
        RunTwo(w, Offer(who, value), Abandon(who));
      } else {
        var last := if fault.NoFault? then Sync(who) else LoseSync(who);
        var renamed := Next(offered, Rename(who));
        RenamedRuns(renamed, who, current, value);
        assert OfferedSteps(who, value, fault) == WriteSteps(who, value, fault) == [Offer(who, value), Rename(who)] + [last];
        RunBoth(w, [Offer(who, value), Rename(who)], [last]);
        RunTwo(w, Offer(who, value), Rename(who));
        RunOne(renamed, last);
      }
    } else {
      RunNothing(w);
    }
  }

  lemma ValidIsSerializable(value: Value)
    requires ValidDocument(value)
    ensures Serializable(value)
  {
  }

  lemma GiveRuns(w: World, who: nat, current: Value, onDisk: Value)
    requires Rests(w, who, current, onDisk)
    ensures var r := Run(w, [Give(who)]);
            Rests(r, who, current, onDisk) && r.log == w.log + [Received(who, current)]
  {
    RunOne(w, Give(who));
  }

  lemma LoadRuns(w: World, who: nat, doc: Value)
    requires Enters(w, who) && w.stages[who] == Entered && w.path == Some(Complete(doc)) && ValidDocument(doc)
    ensures var r := Run(w, [LoadDocument(who)]);
            Rests(r, who, doc, doc) && r.log == w.log + [Fetched(who, doc)]
  {
    hide ValidDocument, Run, InSession, Left;
    RunOne(w, LoadDocument(who));
  }

  // ---------------------------------------------------------------------------------------
  // One refresh.
  // ---------------------------------------------------------------------------------------

  /** What a refresh adds to the shared log. */
  function RefreshEvents(
    who: nat, target: Option<Contents>, now: real, ttl: real, callback: Value -> CallbackResult, fault: Fault): seq<Event>
  {
    if Loaded(target, now, ttl).Err? then []
    else
      var doc := Loaded(target, now, ttl).value;
      [Fetched(who, doc), Received(who, doc)]
      + match callback(doc)
        case Returns(value) => WriteEvents(who, doc, doc, value, fault)
        case _ => []
  }

  lemma RefreshRuns(
    w: World, who: nat, now: real, ttl: real, callback: Value -> CallbackResult, fault: Fault)
    requires Enters(w, who) && w.stages[who] == Entered
    ensures var r := Run(w, RefreshSteps(who, w.path, now, ttl, callback, fault));
            && r.path == RefreshOutcome(w.path, Acquired, now, ttl, callback, fault).target
            && r.log == w.log + RefreshEvents(who, w.path, now, ttl, callback, fault)
  {
    hide Next, ValidDocument, OfferedSteps, WriteEvents;
    var loaded := Loaded(w.path, now, ttl);
    if loaded.Ok? {
      var doc := loaded.value;
      LoadedIsThere(w.path, now, ttl);
      LoadRuns(w, who, doc);
      var began := Run(w, [LoadDocument(who)]);
      GiveRuns(began, who, doc, doc);
      RunBoth(w, [LoadDocument(who)], [Give(who)]);
      assert [LoadDocument(who)] + [Give(who)] == [LoadDocument(who), Give(who)];
      var given := Run(w, [LoadDocument(who), Give(who)]);
      match callback(doc)
      case Returns(value) =>
        RunBoth(w, [LoadDocument(who), Give(who)], OfferedSteps(who, value, fault));
        WriteRuns(given, who, doc, doc, value, fault);
        WriteOutcome(doc, value, fault);
      case _ =>
    }
  }

  lemma WriteOutcome(onDisk: Value, value: Value, fault: Fault)
    ensures Written(onDisk, value, fault) ==
            if !ValidDocument(value) then onDisk
            else if fault.NoFault? || Replaces(value, fault) then value else onDisk
  {
    if ValidDocument(value) {
      ValidIsSerializable(value);
    }
  }

  /** A refresh that has its lock, in any company: whatever all the others do until it leaves,
      its own steps leave the path exactly as the refresh specifies, and the shared log gains
      exactly its events, so that everything said of every log is said of the refresh. */
  lemma RefreshInAnyCompany(
    initial: Option<Contents>, w: World, steps: seq<Step>, who: nat,
    now: real, ttl: real, callback: Value -> CallbackResult, fault: Fault)
    requires Sound(initial, w) && who < |w.stages| && w.stages[who] == Entered
    requires Leave(who) !in steps
    requires Own(steps, who) == RefreshSteps(who, w.path, now, ttl, callback, fault)
    ensures Run(w, steps).path == RefreshOutcome(w.path, Acquired, now, ttl, callback, fault).target
    ensures Run(w, steps).log == w.log + RefreshEvents(who, w.path, now, ttl, callback, fault)
  {
    hide Sound, Next, Run, RefreshSteps, RefreshOutcome, RefreshEvents;
    AloneInItsInterval(initial, w, steps, who);
    HomesMatch(initial, w);
    RefreshRuns(w, who, now, ttl, callback, fault);
  }

  // ---------------------------------------------------------------------------------------
  // One access transaction.
  // ---------------------------------------------------------------------------------------

  /** The script's reads, each answered as the specification says, are in the shared log. */
  ghost predicate ReadsLogged(log: seq<Event>, who: nat, s: Scope, script: seq<Access>) {
    forall i :: 0 <= i < |script| && script[i].ReadToken? ==>
      var answer := ScopeRead(PerformAll(s, script[..i]));
      answer.Ok? && Received(who, answer.value) in log
  }

  lemma AccessRuns(w: World, who: nat, s: Scope, onDisk: Value, access: Access)
    requires s.active && s.current.Some? && s.target == Some(Complete(onDisk))
    requires Rests(w, who, s.current.value, onDisk)
    ensures var r, t := Run(w, AccessSteps(who, access)), Perform(s, access);
            && t.active && t.current.Some? && t.target.Some? && t.target.value.Complete?
            && Rests(r, who, t.current.value, t.target.value.value)
            && w.log <= r.log
            && (access.ReadToken? ==> Received(who, s.current.value) in r.log)
  {
    hide Next, ValidDocument, OfferedSteps, WriteEvents;
    match access
    case ReadToken => GiveRuns(w, who, s.current.value, onDisk);
    case WriteToken(value, fault) =>
      WriteRuns(w, who, s.current.value, onDisk, value, fault);
      WriteOutcome(onDisk, value, fault);
  }

  lemma {:induction false} ScriptRuns(w: World, who: nat, s: Scope, onDisk: Value, script: seq<Access>)
    requires s.active && s.current.Some? && s.target == Some(Complete(onDisk))
    requires Rests(w, who, s.current.value, onDisk)
    ensures var r, t := Run(w, ScriptSteps(who, script)), PerformAll(s, script);
            && t.active && t.current.Some? && t.target.Some? && t.target.value.Complete?
            && Rests(r, who, t.current.value, t.target.value.value)
            && w.log <= r.log
            && ReadsLogged(r.log, who, s, script)
  {
    hide Next, Rests, Perform, AccessSteps, Run;
    if script == [] {
      RunNothing(w);
    } else {
      var n := |script| - 1;
      ScriptRuns(w, who, s, onDisk, script[..n]);
      var before, t := Run(w, ScriptSteps(who, script[..n])), PerformAll(s, script[..n]);
      AccessRuns(before, who, t, t.target.value.value, script[n]);
      RunBoth(w, ScriptSteps(who, script[..n]), AccessSteps(who, script[n]));
      var r := Run(w, ScriptSteps(who, script));
      forall i | 0 <= i < |script| && script[i].ReadToken?
        ensures var answer := ScopeRead(PerformAll(s, script[..i]));
                answer.Ok? && Received(who, answer.value) in r.log
      {
        if i < n {
          assert script[..n][i] == script[i] && script[..n][..i] == script[..i];
        }
      }
    }
  }

  lemma RunNothing(w: World)
    ensures Run(w, []) == w
  {
  }

  /** An access transaction that has its lock, in any company: its own steps leave the path
      exactly as performing its script does, and every read is given what the script's
      specification says. */
  lemma TransactionInAnyCompany(
    initial: Option<Contents>, w: World, steps: seq<Step>, who: nat, now: real, ttl: real, script: seq<Access>)
    requires Sound(initial, w) && who < |w.stages| && w.stages[who] == Entered
    requires Leave(who) !in steps
    requires Own(steps, who) == TransactionSteps(who, w.path, now, ttl, script)
    ensures var r := Run(w, steps);
            var loaded := Loaded(w.path, now, ttl);
            if loaded.Err? then r.path == w.path && r.log == w.log
            else
              var begun := Scope(true, Some(loaded.value), Ready, w.path);
              && r.path == PerformAll(begun, script).target
              && w.log <= r.log
              && ReadsLogged(r.log, who, begun, script)
  {
    hide Sound, Next, Run, ScriptSteps, PerformAll, ReadsLogged, ValidDocument;
    AloneInItsInterval(initial, w, steps, who);
    HomesMatch(initial, w);
    RunNothing(w);
    var loaded := Loaded(w.path, now, ttl);
    if loaded.Ok? {
      LoadedIsThere(w.path, now, ttl);
      LoadRuns(w, who, loaded.value);
      RunBoth(w, [LoadDocument(who)], ScriptSteps(who, script));
      ScriptRuns(Run(w, [LoadDocument(who)]), who, Scope(true, Some(loaded.value), Ready, w.path), loaded.value, script);
    }
  }

  // ---------------------------------------------------------------------------------------
  // The whole interval.
  // ---------------------------------------------------------------------------------------

  /** The locks are free for an operation that is not inside yet. */
  predicate MayBegin(w: World, who: nat) {
    Enters(w, who) && w.stages[who] == Outside && MayLock(w, who) && w.exclusive.None? && w.readers == {}
  }

  /** With the locks free, taking them puts the operation where the lemmas above begin. */
  lemma LocksTaken(w: World, who: nat)
    requires MayBegin(w, who)
    ensures var r := Run(w, [LockThread(who, false), LockFile(who)]);
            && Enters(r, who) && r.stages[who] == Entered && r.path == w.path
            && r.log == w.log + [Took(who)]
  {
    RunTwo(w, LockThread(who, false), LockFile(who));
  }

  lemma LeaveRuns(w: World, who: nat)
    requires Enters(w, who) && w.stages[who] != Outside && w.exclusive == Some(who)
    ensures var r := Run(w, [Leave(who)]);
            && |r.stages| == |w.stages| && r.path == w.path && r.stages[who] == Outside && r.exclusive.None?
            && r.log == w.log + [Dropped(who)]
  {
    RunOne(w, Leave(who));
  }

  lemma HoldsTheLock(initial: Option<Contents>, w: World, who: nat)
    requires Sound(initial, w) && who < |w.stages| && Working(w.stages[who])
    ensures Enters(w, who) && w.stages[who] != Outside && w.exclusive == Some(who)
  {
    assert StageOk(w, who);
  }

  lemma {:induction false} StaysWorking(w: World, who: nat, steps: seq<Step>)
    requires Enters(w, who) && Working(w.stages[who])
    requires ByItself(steps, who)
    ensures Enters(Run(w, steps), who) && Working(Run(w, steps).stages[who])
  {
    hide ValidDocument;
    if steps != [] {
      StaysWorking(w, who, steps[..|steps| - 1]);
    }
  }

  predicate ByItself(steps: seq<Step>, who: nat) {
    forall k :: 0 <= k < |steps| ==> steps[k].who == who && !steps[k].Leave?
  }

  /** One closed interval around `inner`. */
  lemma IntervalRuns(initial: Option<Contents>, w: World, who: nat, inner: seq<Step>)
    requires Sound(initial, w) && MayBegin(w, who) && ByItself(inner, who)
    ensures var done := Run(Run(w, [LockThread(who, false), LockFile(who)]), inner);
            var r := Run(w, Interval(who, Acquired, inner));
            && r.path == done.path && r.log == done.log + [Dropped(who)]
            && |r.stages| == |w.stages| && r.stages[who] == Outside && r.exclusive.None?
  {
    hide Sound, Next, Run, MayLock;
    var taking := [LockThread(who, false), LockFile(who)];
    LocksTaken(w, who);
    RunBoth(w, taking, inner);
    StaysWorking(Run(w, taking), who, inner);
    RunKeepsSound(initial, w, taking + inner);
    HoldsTheLock(initial, Run(w, taking + inner), who);
    LeaveRuns(Run(w, taking + inner), who);
    RunBoth(w, taking + inner, [Leave(who)]);
    RunKeepsSound(initial, w, taking + inner + [Leave(who)]);
  }

  lemma {:induction false} ScriptByItself(who: nat, script: seq<Access>)
    ensures ByItself(ScriptSteps(who, script), who)
  {
    hide ValidDocument, Replaces;
    if script != [] {
      ScriptByItself(who, script[..|script| - 1]);
    }
  }

  /** The steps a manager records for a refresh, lock and release included: the path is that of
      the specified refresh, the lock is free again, and the log has gained exactly one closed
      interval around the refresh's own events. */
  lemma RefreshInterval(
    initial: Option<Contents>, w: World, who: nat, now: real, ttl: real, callback: Value -> CallbackResult, fault: Fault)
    requires Sound(initial, w) && MayBegin(w, who)
    ensures var r := Run(w, Interval(who, Acquired, RefreshSteps(who, w.path, now, ttl, callback, fault)));
            && r.path == RefreshOutcome(w.path, Acquired, now, ttl, callback, fault).target
            && |r.stages| == |w.stages| && r.stages[who] == Outside && r.exclusive.None?
            && r.log == w.log + [Took(who)] + RefreshEvents(who, w.path, now, ttl, callback, fault) + [Dropped(who)]
  {
    hide Sound, Next, Run, RefreshOutcome, RefreshEvents, MayBegin, ValidDocument, Replaces;
    var inner := RefreshSteps(who, w.path, now, ttl, callback, fault);
    LocksTaken(w, who);
    RefreshRuns(Run(w, [LockThread(who, false), LockFile(who)]), who, now, ttl, callback, fault);
    IntervalRuns(initial, w, who, inner);
  }

  /** The steps a manager records for an access transaction, lock and release included: the path
      is what performing the script leaves, every read is given what the script specifies, and
      the lock is free again. */
  lemma TransactionInterval(initial: Option<Contents>, w: World, who: nat, now: real, ttl: real, script: seq<Access>)
    requires Sound(initial, w) && MayBegin(w, who)
    ensures var r := Run(w, Interval(who, Acquired, TransactionSteps(who, w.path, now, ttl, script)));
            var loaded := Loaded(w.path, now, ttl);
            && |r.stages| == |w.stages| && r.stages[who] == Outside && r.exclusive.None?
            && if loaded.Err? then r.path == w.path && r.log == w.log + [Took(who), Dropped(who)]
               else
                 var begun := Scope(true, Some(loaded.value), Ready, w.path);
                 && r.path == PerformAll(begun, script).target
                 && w.log + [Took(who)] <= r.log && r.log[|r.log| - 1] == Dropped(who)
                 && ReadsLogged(r.log, who, begun, script)
  {
    hide Sound, Next, Run, MayBegin, ScriptSteps, PerformAll, ReadsLogged, ValidDocument, Working;
    var taking, inner := [LockThread(who, false), LockFile(who)], TransactionSteps(who, w.path, now, ttl, script);
    LocksTaken(w, who);
    ScriptByItself(who, script);
    IntervalRuns(initial, w, who, inner);
    var began := Run(w, taking);
    var loaded := Loaded(w.path, now, ttl);
    if loaded.Err? {
      RunNothing(began);
    } else {
      TransactionRuns(began, who, now, ttl, script);
      MoreLog(Run(began, inner).log, Dropped(who), who, Scope(true, Some(loaded.value), Ready, w.path), script);
    }
  }

  lemma MoreLog(log: seq<Event>, e: Event, who: nat, s: Scope, script: seq<Access>)
    requires ReadsLogged(log, who, s, script)
    ensures ReadsLogged(log + [e], who, s, script)
  {
    hide PerformAll;
  }

  lemma TransactionRuns(w: World, who: nat, now: real, ttl: real, script: seq<Access>)
    requires Enters(w, who) && w.stages[who] == Entered && Loaded(w.path, now, ttl).Ok?
    ensures var r := Run(w, TransactionSteps(who, w.path, now, ttl, script));
            var begun := Scope(true, Some(Loaded(w.path, now, ttl).value), Ready, w.path);
            r.path == PerformAll(begun, script).target && w.log <= r.log && ReadsLogged(r.log, who, begun, script)
  {
    hide Next, Run, ScriptSteps, PerformAll, ReadsLogged, ValidDocument;
    var doc := Loaded(w.path, now, ttl).value;
    LoadedIsThere(w.path, now, ttl);
    LoadRuns(w, who, doc);
    RunBoth(w, [LoadDocument(who)], ScriptSteps(who, script));
    ScriptRuns(Run(w, [LoadDocument(who)]), who, Scope(true, Some(doc), Ready, w.path), doc, script);
  }

  // ---------------------------------------------------------------------------------------
  // A cancelled entry.
  // ---------------------------------------------------------------------------------------

  /** A coroutine cancelled while it waits for the lock gives an acquired lock back if and only
      if no further cancellation ends the bare wait that follows; the path is left alone. */
  lemma CancelledEntryGivesBackIff(initial: Option<Contents>, w: World, who: nat, c: Cancellations)
    requires Sound(initial, w) && MayBegin(w, who)
    ensures var r := Run(w, CancelledSteps(who, Acquired, c));
            && |r.stages| == |w.stages| && r.path == w.path
            && (r.stages[who] == Outside <==> !c.bare)
            && (r.exclusive.None? <==> !c.bare)
  {
    hide Sound, Next, Run, MayLock;
    var taking := [LockThread(who, false), LockFile(who)];
    LocksTaken(w, who);
    RunKeepsSound(initial, w, taking);
    HoldsTheLock(initial, Run(w, taking), who);
    LeaveRuns(Run(w, taking), who);
    RunBoth(w, taking, [Leave(who)]);
    assert taking + [] == taking;
  }

  /** As long as an operation does not leave, no operation of another thread of its process
      ever gets as far as the in-process lock. */
  lemma {:induction false} HeldLockShutsOthersOut(initial: Option<Contents>, w: World, steps: seq<Step>, who: nat, other: nat)
    requires Sound(initial, w) && Enters(w, who) && Enters(w, other)
    requires w.stages[who] != Outside && w.homes[who].process == w.homes[other].process
    requires w.homes[who].thread != w.homes[other].thread
    requires forall k :: 0 <= k < |steps| ==> steps[k].who != who
    ensures var r := Run(w, steps);
            Enters(r, who) && Enters(r, other) && r.stages[who] == w.stages[who] && r.stages[other] == Outside
  {
    hide Sound, Next;
    if steps == [] {
      InsideExcludes(initial, w, who, other);
    } else {
      var n := |steps| - 1;
      HeldLockShutsOthersOut(initial, w, steps[..n], who, other);
      RunKeepsSound(initial, w, steps[..n]);
      RunKeepsSound(initial, w, steps);
      NotMyStep(Run(w, steps[..n]), steps[n], who);
      HomesMatch(initial, Run(w, steps));
      InsideExcludes(initial, Run(w, steps), who, other);
    }
  }

  lemma NotMyStep(w: World, step: Step, who: nat)
    requires Enters(w, who) && step.who != who
    ensures who < |Next(w, step).stages| && Next(w, step).stages[who] == w.stages[who]
  {
    hide ValidDocument, MayLock;
  }

  lemma InsideExcludes(initial: Option<Contents>, w: World, who: nat, other: nat)
    requires Sound(initial, w) && Enters(w, who) && Enters(w, other) && w.stages[who] != Outside
    requires w.homes[who].process == w.homes[other].process && w.homes[who].thread != w.homes[other].thread
    ensures w.stages[other] == Outside
  {
    assert StageOk(w, who) && StageOk(w, other);
    assert LivesIn(w.homes, w.homes[who].process, who) && LivesIn(w.homes, w.homes[who].process, other);
  }

  /** Two cancellations in a row on a free lock: from then on no other thread of the process
      ever enters, whatever anybody else does. */
  lemma SecondCancellationLeaksTheLock(initial: Option<Contents>, steps: seq<Step>)
    requires forall k :: 0 <= k < |steps| ==> steps[k].who != 0
    ensures var homes := [Home(0, 0), Home(0, 1)];
            var leaked := Run(Start(homes, initial), CancelledSteps(0, Acquired, Cancellations(true, true, false)));
            var r := Run(leaked, steps);
            |r.stages| == 2 && r.stages[0] != Outside && r.stages[1] == Outside
  {
    hide Next, Run;
    var homes := [Home(0, 0), Home(0, 1)];
    var w := Start(homes, initial);
    var entry := CancelledSteps(0, Acquired, Cancellations(true, true, false));
    StartIsSound(homes, initial);
    assert MayBegin(w, 0);
    CancelledEntryGivesBackIff(initial, w, 0, Cancellations(true, true, false));
    RunKeepsSound(initial, w, entry);
    RunKeepsSound(initial, Run(w, entry), steps);
    HeldLockShutsOthersOut(initial, Run(w, entry), steps, 0, 1);
  }
}
