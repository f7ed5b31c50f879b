/** Many operations, in many threads and processes, on one token path. Each takes an in-process
    lock, which its own thread may hold already, and then a file lock while it works; any of
    them may stop, fail or crash at any point. */
module TokenSharing {
  import opened Common
  import opened TokenDocuments

  /** A write: the new document is ready, or renamed over the path but not yet known to last. */
  datatype WritePhase = Idle | Pending(next: Value) | Renamed(next: Value)

  /** Where one operation is. In a session `current` is what its client is given; `onDisk` is
      what the path holds. */
  datatype Stage =
    | Outside
    | ThreadLocked(shared: bool)
    | Entered
    | Session(current: Value, onDisk: Value, write: WritePhase)
    | ReadOnly

  datatype Event =
    | Took(who: nat)
    | Fetched(who: nat, doc: Value)
    | Received(who: nat, doc: Value)
    | Committed(who: nat, given: Value, base: Value, doc: Value)
    | Confirmed(who: nat, doc: Value)
    | Dropped(who: nat)
    | Observed(who: nat, found: Option<Contents>)

  /** The process and thread of an operation never change. */
  datatype Home = Home(process: nat, thread: nat)

  datatype World = World(
    homes: seq<Home>,
    stages: seq<Stage>,
    threadLocks: map<nat, set<nat>>,  // process to the operations inside its in-process lock
    exclusive: Option<nat>,           // holder of the exclusive file lock
    readers: set<nat>,                // holders of the shared file lock
    path: Option<Contents>,
    log: seq<Event>)

  datatype Step =
    | LockThread(who: nat, shared: bool)
    | LockFile(who: nat)
    | LoadDocument(who: nat)
    | Give(who: nat)                 // a refresh callback, or a read by client code
    | Offer(who: nat, value: Value)  // a valid document to write
    | Abandon(who: nat)              // the write fails before the rename
    | Rename(who: nat)
    | Sync(who: nat)
    | LoseSync(who: nat)             // the rename went through, the directory sync did not
    | ReadShared(who: nat)
    | Leave(who: nat)                // release, timeout, error and crash all end here

  function Inside(locks: map<nat, set<nat>>, process: nat): set<nat> {
    if process in locks then locks[process] else {}
  }

  predicate Enters(w: World, who: nat) {
    who < |w.stages| && |w.homes| == |w.stages|
  }

  /** The in-process lock is re-entrant: it is free, or only operations of this thread hold it. */
  predicate MayLock(w: World, who: nat)
    requires Enters(w, who)
  {
    forall other :: other in Inside(w.threadLocks, w.homes[who].process) ==>
      other < |w.homes| && w.homes[other].thread == w.homes[who].thread
  }

  function SetStage(w: World, who: nat, stage: Stage): World
    requires who < |w.stages|
  {
    w.(stages := w.stages[who := stage])
  }

  function Logged(w: World, e: Event): World {
    w.(log := w.log + [e])
  }

  /** A step that is not possible changes nothing. */
  function Next(w: World, step: Step): World {
    if !Enters(w, step.who) then w else
    var who := step.who;
    var process := w.homes[who].process;
    match w.stages[who]
    case Outside =>
      if step.LockThread? && MayLock(w, who) then
        SetStage(w, who, ThreadLocked(step.shared)).(threadLocks := w.threadLocks[process := Inside(w.threadLocks, process) + {who}])
      else w
    case ThreadLocked(shared) =>
      if step.Leave? then Left(w, who)
      else if step.LockFile? && w.exclusive.None? then
        if shared then SetStage(w, who, ReadOnly).(readers := w.readers + {who})
        else if w.readers == {} then Logged(SetStage(w, who, Entered).(exclusive := Some(who)), Took(who))
        else w
      else w
    case Entered =>
      if step.Leave? then Left(w, who)
      else if step.LoadDocument? && w.path.Some? && w.path.value.Complete? && ValidDocument(w.path.value.value) then
        var doc := w.path.value.value;
        Logged(SetStage(w, who, Session(doc, doc, Idle)), Fetched(who, doc))
      else w
    case Session(current, onDisk, write) => InSession(w, step, current, onDisk, write)
    case ReadOnly =>
      if step.Leave? then Left(w, who)
      else if step.ReadShared? then Logged(w, Observed(who, w.path))
      else w
  }

  function InSession(w: World, step: Step, current: Value, onDisk: Value, write: WritePhase): World
    requires Enters(w, step.who)
  {
    var who := step.who;
    match step
    case Give(_) => Logged(w, Received(who, current))
    case Offer(_, value) =>
      if write.Idle? && ValidDocument(value) then SetStage(w, who, Session(current, onDisk, Pending(value))) else w
    case Abandon(_) => if write.Pending? then SetStage(w, who, Session(current, onDisk, Idle)) else w
    case Rename(_) =>
      if write.Pending? then
        Logged(SetStage(w, who, Session(current, write.next, Renamed(write.next))).(path := Some(Complete(write.next))),
               Committed(who, current, onDisk, write.next))
      else w
    case Sync(_) =>
      if write.Renamed? then Logged(SetStage(w, who, Session(write.next, onDisk, Idle)), Confirmed(who, write.next)) else w
    case LoseSync(_) => if write.Renamed? then SetStage(w, who, Session(current, onDisk, Idle)) else w
    case Leave(_) => Left(w, who)
    case _ => w
  }

  function Left(w: World, who: nat): World
    requires Enters(w, who)
  {
    var process := w.homes[who].process;
    var r := SetStage(w, who, Outside).(
      threadLocks := w.threadLocks[process := Inside(w.threadLocks, process) - {who}],
      readers := w.readers - {who});
    if w.exclusive == Some(who) then Logged(r.(exclusive := None), Dropped(who)) else r
  }

  function Run(w: World, steps: seq<Step>): World {
    if steps == [] then w else Next(Run(w, steps[..|steps| - 1]), steps[|steps| - 1])
  }

  function Start(homes: seq<Home>, path: Option<Contents>): World {
    World(homes, seq(|homes|, _ => Outside), map[], None, {}, path, [])
  }

  // ---------------------------------------------------------------------------------------
  // What a log tells.
  // ---------------------------------------------------------------------------------------

  /** What the path holds after the events. */
  function PathAfter(initial: Option<Contents>, log: seq<Event>): Option<Contents> {
    if log == [] then initial
    else if log[|log| - 1].Committed? then Some(Complete(log[|log| - 1].doc))
    else PathAfter(initial, log[..|log| - 1])
  }

  /** Whose lock interval is open. */
  function Holder(log: seq<Event>): Option<nat> {
    if log == [] then None
    else if log[|log| - 1].Took? then Some(log[|log| - 1].who)
    else if log[|log| - 1].Dropped? then None
    else Holder(log[..|log| - 1])
  }

  /** The document loaded last in the present interval, or written since by a write that
      returned normally. An acquisition starts with none. */
  function LastGood(log: seq<Event>): Option<Value> {
    if log == [] then None
    else
      match log[|log| - 1]
      case Took(_) => None
      case Fetched(_, doc) => Some(doc)
      case Confirmed(_, doc) => Some(doc)
      case _ => LastGood(log[..|log| - 1])
  }

  /** In the present interval, since its last load or confirmed write, something was renamed
      that never was confirmed. */
  function Unconfirmed(log: seq<Event>): bool {
    if log == [] then false
    else
      match log[|log| - 1]
      case Took(_) => false
      case Committed(_, _, _, _) => true
      case Fetched(_, _) => false
      case Confirmed(_, _) => false
      case _ => Unconfirmed(log[..|log| - 1])
  }

  /** What an event promises about everything before it. */
  ghost predicate EventOk(initial: Option<Contents>, before: seq<Event>, e: Event) {
    var path := PathAfter(initial, before);
    match e
    case Took(_) => Holder(before).None?
    case Dropped(who) => Holder(before) == Some(who)
    case Fetched(who, doc) => Holder(before) == Some(who) && path == Some(Complete(doc)) && ValidDocument(doc)
    case Received(who, doc) =>
      && Holder(before) == Some(who)
      && LastGood(before) == Some(doc)
      && (!Unconfirmed(before) ==> path == Some(Complete(doc)))
    case Committed(who, given, base, doc) =>
      && Holder(before) == Some(who)
      && LastGood(before) == Some(given)
      && path == Some(Complete(base))
      && (!Unconfirmed(before) ==> base == given)
      && ValidDocument(doc)
    case Confirmed(who, doc) => Holder(before) == Some(who) && Unconfirmed(before) && path == Some(Complete(doc))
    case Observed(_, found) => Holder(before).None? && path == found
  }

  ghost predicate Linear(initial: Option<Contents>, log: seq<Event>) {
    forall k :: 0 <= k < |log| ==> EventOk(initial, log[..k], log[k])
  }

  lemma LogGrows(initial: Option<Contents>, log: seq<Event>, e: Event)
    ensures PathAfter(initial, log + [e]) == if e.Committed? then Some(Complete(e.doc)) else PathAfter(initial, log)
    ensures Holder(log + [e]) == if e.Took? then Some(e.who) else if e.Dropped? then None else Holder(log)
    ensures LastGood(log + [e]) == if e.Took? then None else if e.Fetched? || e.Confirmed? then Some(e.doc) else LastGood(log)
    ensures Unconfirmed(log + [e]) == (e.Committed? || (Unconfirmed(log) && !e.Took? && !e.Fetched? && !e.Confirmed?))
    ensures Linear(initial, log) && EventOk(initial, log, e) ==> Linear(initial, log + [e])
  {
    var more := log + [e];
    assert more[..|log|] == log;
    if Linear(initial, log) && EventOk(initial, log, e) {
      forall k | 0 <= k < |more|
        ensures EventOk(initial, more[..k], more[k])
      {
        if k < |log| {
          assert more[..k] == log[..k];
        }
      }
    }
  }

  // ---------------------------------------------------------------------------------------
  // The invariant.
  // ---------------------------------------------------------------------------------------

  predicate Working(s: Stage) {
    s.Entered? || s.Session?
  }

  /** What a session knows about the path and the log. */
  ghost predicate SessionOk(s: Stage, path: Option<Contents>, log: seq<Event>) {
    s.Session? ==>
      && path == Some(Complete(s.onDisk))
      && LastGood(log) == Some(s.current)
      && (!Unconfirmed(log) ==> s.current == s.onDisk)
      && (s.write.Pending? ==> ValidDocument(s.write.next))
      && (s.write.Renamed? ==> s.write.next == s.onDisk && Unconfirmed(log))
  }

  /** One operation against the locks and the document. */
  ghost predicate StageOk(w: World, i: nat)
    requires i < |w.stages| == |w.homes|
  {
    var s := w.stages[i];
    && (Working(s) <==> w.exclusive == Some(i))
    && (s.ReadOnly? <==> i in w.readers)
    && (!s.Outside? <==> i in Inside(w.threadLocks, w.homes[i].process))
    && SessionOk(s, w.path, w.log)
  }

  ghost predicate LivesIn(homes: seq<Home>, process: nat, i: nat) {
    i < |homes| && homes[i].process == process
  }

  /** Everybody inside one in-process lock is of that process, and of one thread. */
  ghost predicate LocksOk(homes: seq<Home>, locks: map<nat, set<nat>>) {
    && (forall process, i :: i in Inside(locks, process) ==> LivesIn(homes, process, i))
    && (forall process, i, j ::
          i in Inside(locks, process) && j in Inside(locks, process) && LivesIn(homes, process, i) && LivesIn(homes, process, j)
          ==> homes[i].thread == homes[j].thread)
  }

  ghost predicate Sound(initial: Option<Contents>, w: World) {
    && |w.homes| == |w.stages|
    && w.path == PathAfter(initial, w.log)
    && w.exclusive == Holder(w.log)
    && Linear(initial, w.log)
    && LocksOk(w.homes, w.threadLocks)
    && (w.exclusive.Some? ==> w.exclusive.value < |w.stages| && w.readers == {})
    && forall i :: 0 <= i < |w.stages| ==> StageOk(w, i)
  }

  /** The event a step adds, if any. */
  function Adds(w: World, step: Step): seq<Event> {
    var r := Next(w, step);
    if |r.log| > |w.log| then [r.log[|w.log|]] else []
  }

  lemma NextLogs(initial: Option<Contents>, w: World, step: Step)
    requires Sound(initial, w)
    ensures var r := Next(w, step);
            && r.log == w.log + Adds(w, step)
            && |Adds(w, step)| <= 1
            && (Adds(w, step) != [] ==> EventOk(initial, w.log, Adds(w, step)[0]))
            && (Adds(w, step) != [] && Adds(w, step)[0].Committed? ==> r.path == Some(Complete(Adds(w, step)[0].doc)))
            && (Adds(w, step) == [] || !Adds(w, step)[0].Committed? ==> r.path == w.path)
  {
    hide ValidDocument, PathAfter, Holder, LastGood, Unconfirmed, Linear, LocksOk, MayLock;
    if Enters(w, step.who) {
      assert StageOk(w, step.who);
    }
  }

  lemma NextKeepsLog(initial: Option<Contents>, w: World, step: Step)
    requires Sound(initial, w)
    ensures var r := Next(w, step);
            && r.path == PathAfter(initial, r.log)
            && Linear(initial, r.log)
            && r.exclusive == Holder(r.log)
  {
    hide ValidDocument, PathAfter, Holder, LastGood, Unconfirmed, Linear, LocksOk, MayLock, EventOk;
    NextLogs(initial, w, step);
    if Adds(w, step) != [] {
      LogGrows(initial, w.log, Adds(w, step)[0]);
    }
    if Enters(w, step.who) {
      assert StageOk(w, step.who);
    }
  }

  lemma NextKeepsLocks(initial: Option<Contents>, w: World, step: Step)
    requires Sound(initial, w)
    ensures LocksOk(Next(w, step).homes, Next(w, step).threadLocks)
    ensures Next(w, step).homes == w.homes && |Next(w, step).stages| == |w.stages|
  {
    hide ValidDocument, PathAfter, Holder, LastGood, Unconfirmed, Linear, StageOk, EventOk, LocksOk, Inside;
    var r := Next(w, step);
    if r.threadLocks != w.threadLocks {
      LocksNext(w, r.threadLocks[w.homes[step.who].process], step.who);
    }
  }

  lemma LocksNext(w: World, inside: set<nat>, who: nat)
    requires LocksOk(w.homes, w.threadLocks) && Enters(w, who)
    requires var before := Inside(w.threadLocks, w.homes[who].process);
             inside == before - {who} || (inside == before + {who} && MayLock(w, who))
    ensures LocksOk(w.homes, w.threadLocks[w.homes[who].process := inside])
  {
    var process := w.homes[who].process;
    var locks := w.threadLocks[process := inside];
    assert forall p: nat :: Inside(locks, p) == if p == process then inside else Inside(w.threadLocks, p);
    hide Inside;
    forall p: nat, i: nat | i in Inside(locks, p)
      ensures LivesIn(w.homes, p, i)
    {
      assert i in Inside(w.threadLocks, p) || (i == who && p == process);
    }
  }

  /** While one operation works, no other changes the path or adds to the log. */
  lemma OthersAreQuiet(initial: Option<Contents>, w: World, step: Step, who: nat)
    requires Sound(initial, w) && who < |w.stages| && Working(w.stages[who]) && step.who != who
    ensures Next(w, step).path == w.path && Next(w, step).log == w.log
    ensures Next(w, step).stages[who] == w.stages[who] && Next(w, step).exclusive == Some(who)
  {
    hide ValidDocument, PathAfter, Holder, Linear, LocksOk, SessionOk;
    assert StageOk(w, who);
    if Enters(w, step.who) {
      assert StageOk(w, step.who);
    }
  }

  lemma OtherStage(initial: Option<Contents>, w: World, step: Step, i: nat)
    requires Sound(initial, w) && i < |w.stages| && i != step.who
    requires |Next(w, step).stages| == |w.stages| && Next(w, step).homes == w.homes
    ensures StageOk(Next(w, step), i)
  {
    hide ValidDocument, PathAfter, Holder, LastGood, Unconfirmed, Linear, LocksOk, MayLock, EventOk, SessionOk;
    assert StageOk(w, i);
    if Enters(w, step.who) {
      assert StageOk(w, step.who);
      assert SessionOk(Next(w, step).stages[i], Next(w, step).path, Next(w, step).log) by {
        if Working(w.stages[i]) {
          OthersAreQuiet(initial, w, step, i);
        } else {
          NoSession(w.stages[i], Next(w, step).path, Next(w, step).log);
          assert Next(w, step).stages[i] == w.stages[i];
        }
      }
    }
  }

  lemma NoSession(s: Stage, path: Option<Contents>, log: seq<Event>)
    requires !Working(s)
    ensures SessionOk(s, path, log)
  {
  }

  lemma OwnStage(initial: Option<Contents>, w: World, step: Step)
    requires Sound(initial, w) && step.who < |w.stages|
    requires |Next(w, step).stages| == |w.stages| && Next(w, step).homes == w.homes
    ensures StageOk(Next(w, step), step.who)
  {
    hide Sound, Next, StageOk;
    if SessionAt(w, step.who) {
      OwnSession(initial, w, step);
    } else {
      OwnEntry(initial, w, step);
    }
  }

  predicate SessionAt(w: World, who: nat)
    requires who < |w.stages|
  {
    w.stages[who].Session?
  }

  lemma OwnSession(initial: Option<Contents>, w: World, step: Step)
    requires Sound(initial, w) && step.who < |w.stages| && SessionAt(w, step.who)
    requires |Next(w, step).stages| == |w.stages| && Next(w, step).homes == w.homes
    ensures StageOk(Next(w, step), step.who)
  {
    hide ValidDocument, PathAfter, Holder, LastGood, Unconfirmed, Linear, LocksOk, MayLock, EventOk;
    assert StageOk(w, step.who);
    NextLogs(initial, w, step);
    if Adds(w, step) != [] {
      LogGrows(initial, w.log, Adds(w, step)[0]);
    }
  }

  lemma OwnEntry(initial: Option<Contents>, w: World, step: Step)
    requires Sound(initial, w) && step.who < |w.stages| && !SessionAt(w, step.who)
    requires |Next(w, step).stages| == |w.stages| && Next(w, step).homes == w.homes
    ensures StageOk(Next(w, step), step.who)
  {
    hide ValidDocument, PathAfter, Holder, LastGood, Unconfirmed, Linear, LocksOk, MayLock, EventOk, InSession;
    assert StageOk(w, step.who);
    NextLogs(initial, w, step);
    if Adds(w, step) != [] {
      LogGrows(initial, w.log, Adds(w, step)[0]);
    }
  }

  lemma NextKeepsSound(initial: Option<Contents>, w: World, step: Step)
    requires Sound(initial, w)
    ensures Sound(initial, Next(w, step))
  {
    hide ValidDocument, PathAfter, Holder, LastGood, Unconfirmed, Linear, LocksOk, MayLock, StageOk;
    NextKeepsLog(initial, w, step);
    NextKeepsLocks(initial, w, step);
    forall i | 0 <= i < |Next(w, step).stages|
      ensures StageOk(Next(w, step), i)
    {
      if i == step.who {
        OwnStage(initial, w, step);
      } else {
        OtherStage(initial, w, step, i);
      }
    }
    NextKeepsHolder(initial, w, step);
  }

  lemma NextKeepsHolder(initial: Option<Contents>, w: World, step: Step)
    requires Sound(initial, w)
    ensures var r := Next(w, step);
            r.exclusive.Some? ==> r.exclusive.value < |r.stages| && r.readers == {}
  {
    hide ValidDocument, PathAfter, Holder, LastGood, Unconfirmed, Linear, LocksOk, MayLock, EventOk;
    if Enters(w, step.who) {
      assert StageOk(w, step.who);
    }
  }

  lemma {:induction false} RunKeepsSound(initial: Option<Contents>, w: World, steps: seq<Step>)
    requires Sound(initial, w)
    ensures Sound(initial, Run(w, steps))
    ensures Run(w, steps).homes == w.homes && |Run(w, steps).stages| == |w.stages|
  {
    hide Sound, Next;
    if steps != [] {
      RunKeepsSound(initial, w, steps[..|steps| - 1]);
      NextKeepsSound(initial, Run(w, steps[..|steps| - 1]), steps[|steps| - 1]);
      NextKeepsLocks(initial, Run(w, steps[..|steps| - 1]), steps[|steps| - 1]);
    }
  }

  lemma StartIsSound(homes: seq<Home>, initial: Option<Contents>)
    ensures Sound(initial, Start(homes, initial))
  {
    var w := Start(homes, initial);
    assert forall process :: Inside(w.threadLocks, process) == {};
    forall i | 0 <= i < |w.stages|
      ensures StageOk(w, i)
    {
      assert w.stages[i] == Outside;
    }
  }

  // ---------------------------------------------------------------------------------------
  // Theorems over every interleaving.
  // ---------------------------------------------------------------------------------------

  /** No lost refresh. However operations interleave, fail or crash: a load and a shared read
      see the document committed last; a client is given the document loaded or last written
      normally in its own lock interval, which is the one on disk unless a rename of that
      interval was never confirmed; and a commit replaces exactly what is on disk, which is
      what the client was given unless, again, a rename was never confirmed. */
  lemma NoLostRefresh(homes: seq<Home>, initial: Option<Contents>, steps: seq<Step>, k: nat)
    ensures var log := Run(Start(homes, initial), steps).log;
            k < |log| ==> EventOk(initial, log[..k], log[k])
  {
    hide EventOk;
    StartIsSound(homes, initial);
    RunKeepsSound(initial, Start(homes, initial), steps);
  }

  /** At most one operation works on the path, and none while somebody reads under the shared
      lock; two operations share an in-process lock only on one thread; the path always holds
      what was committed last. */
  lemma ExclusiveWork(homes: seq<Home>, initial: Option<Contents>, steps: seq<Step>, i: nat, j: nat)
    requires i < |homes| && j < |homes|
    ensures var w := Run(Start(homes, initial), steps);
            && |w.stages| == |homes|
            && w.path == PathAfter(initial, w.log)
            && (Working(w.stages[i]) && (Working(w.stages[j]) || w.stages[j].ReadOnly?) ==> i == j)
            && (homes[i].process == homes[j].process && homes[i].thread != homes[j].thread ==>
                  w.stages[i].Outside? || w.stages[j].Outside?)
  {
    hide Linear, PathAfter, Holder, SessionOk;
    StartIsSound(homes, initial);
    RunKeepsSound(initial, Start(homes, initial), steps);
    var w := Run(Start(homes, initial), steps);
    assert StageOk(w, i) && StageOk(w, j);
  }

  /** An open interval began with its holder's own acquisition, and nobody else's. */
  function IntervalStart(log: seq<Event>): (a: nat)
    requires Holder(log).Some?
    ensures a < |log| && log[a] == Took(Holder(log).value)
    ensures forall j :: a < j < |log| ==> !log[j].Took? && !log[j].Dropped?
  {
    if log[|log| - 1].Took? then |log| - 1 else IntervalStart(log[..|log| - 1])
  }

  lemma {:induction false} HolderStays(log: seq<Event>, k: nat, b: nat)
    requires k <= b <= |log|
    requires forall j :: k <= j < b ==> !log[j].Took? && !log[j].Dropped?
    ensures Holder(log[..b]) == Holder(log[..k])
    decreases b
  {
    if k < b {
      HolderStays(log, k, b - 1);
      assert log[..b][..b - 1] == log[..b - 1];
    }
  }

  /** Every write to the path lies inside its own lock interval: after its operation's own
      acquisition with no acquisition or release between, and the next release is its own. */
  lemma WritesLieInTheirOwnInterval(homes: seq<Home>, initial: Option<Contents>, steps: seq<Step>, k: nat)
    ensures var log := Run(Start(homes, initial), steps).log;
            k < |log| && log[k].Committed? ==>
              && (exists a :: 0 <= a < k && log[a] == Took(log[k].who)
                              && forall j :: a < j < k ==> !log[j].Took? && !log[j].Dropped?)
              && (forall b :: k < b < |log| && (log[b].Took? || log[b].Dropped?)
                              && (forall j :: k < j < b ==> !log[j].Took? && !log[j].Dropped?)
                    ==> log[b] == Dropped(log[k].who))
  {
    hide Run, PathAfter, LastGood, Unconfirmed;
    var log := Run(Start(homes, initial), steps).log;
    if k < |log| && log[k].Committed? {
      NoLostRefresh(homes, initial, steps, k);
      var a := IntervalStart(log[..k]);
      assert log[a] == Took(log[k].who);
      assert forall j :: a < j < k ==> log[..k][j] == log[j];
      forall b | k < b < |log| && (log[b].Took? || log[b].Dropped?)
                 && (forall j :: k < j < b ==> !log[j].Took? && !log[j].Dropped?)
        ensures log[b] == Dropped(log[k].who)
      {
        NoLostRefresh(homes, initial, steps, b);
        HolderStays(log, k, b);
      }
    }
  }

  /** Where a good document comes from: its own interval's load or confirmed write. */
  function GoodAt(log: seq<Event>): (n: nat)
    requires LastGood(log).Some?
    ensures n < |log| && (log[n].Fetched? || log[n].Confirmed?) && LastGood(log) == Some(log[n].doc)
    ensures forall j :: n < j < |log| ==> !log[j].Took? && !log[j].Fetched? && !log[j].Confirmed?
  {
    var last := log[|log| - 1];
    if last.Fetched? || last.Confirmed? then |log| - 1 else GoodAt(log[..|log| - 1])
  }

  /** Whatever a client is given, and whatever it writes from, it loaded or wrote normally
      itself, in the very lock interval it is in. */
  lemma GivenInItsOwnInterval(homes: seq<Home>, initial: Option<Contents>, steps: seq<Step>, k: nat)
    ensures var log := Run(Start(homes, initial), steps).log;
            k < |log| && (log[k].Received? || log[k].Committed?) ==>
              exists n :: 0 <= n < k
                && (log[n].Fetched? || log[n].Confirmed?) && log[n].who == log[k].who
                && log[n].doc == (if log[k].Received? then log[k].doc else log[k].given)
                && forall j :: n < j < k ==> !log[j].Took? && !log[j].Dropped?
  {
    hide Run, PathAfter, LastGood, Unconfirmed, Holder;
    var log := Run(Start(homes, initial), steps).log;
    if k < |log| && (log[k].Received? || log[k].Committed?) {
      NoLostRefresh(homes, initial, steps, k);
      var n := GoodAt(log[..k]);
      assert forall j :: 0 <= j < k ==> log[..k][j] == log[j];
      NoLostRefresh(homes, initial, steps, n);
      forall j | n < j < k
        ensures !log[j].Dropped?
      {
        if log[j].Dropped? {
          DroppedFrees(log, j);
          NoHolderUntilTaken(log, j + 1, k);
          assert false;
        }
      }
      HolderStays(log, n, k);
    }
  }

  lemma DroppedFrees(log: seq<Event>, j: nat)
    requires j < |log| && log[j].Dropped?
    ensures Holder(log[..j + 1]).None?
  {
  }

  lemma {:induction false} NoHolderUntilTaken(log: seq<Event>, a: nat, b: nat)
    requires a <= b <= |log| && Holder(log[..a]).None?
    requires forall j :: a <= j < b ==> !log[j].Took?
    ensures Holder(log[..b]).None?
    decreases b
  {
    if a < b {
      NoHolderUntilTaken(log, a, b - 1);
      assert log[..b][..b - 1] == log[..b - 1];
    }
  }

  // ---------------------------------------------------------------------------------------
  // Inside its interval an operation is alone.
  // ---------------------------------------------------------------------------------------

  function Own(steps: seq<Step>, who: nat): seq<Step> {
    if steps == [] then []
    else Own(steps[..|steps| - 1], who) + if steps[|steps| - 1].who == who then [steps[|steps| - 1]] else []
  }

  /** What an operation can tell about the world while it works. */
  predicate SameView(w: World, v: World, who: nat) {
    && who < |w.stages| && |w.homes| == |w.stages|
    && who < |v.stages| && |v.homes| == |v.stages|
    && w.stages[who] == v.stages[who] && w.path == v.path && w.log == v.log && Working(w.stages[who])
  }

  lemma OwnStepsAgree(w: World, v: World, step: Step)
    requires SameView(w, v, step.who) && !step.Leave?
    ensures SameView(Next(w, step), Next(v, step), step.who)
  {
  }

  /** Between taking the lock and leaving, whatever the others do meanwhile, an operation's
      own steps have exactly the effect they have with nobody else about. */
  lemma {:induction false} AloneInItsInterval(initial: Option<Contents>, w: World, steps: seq<Step>, who: nat)
    requires Sound(initial, w) && who < |w.stages| && Working(w.stages[who])
    requires Leave(who) !in steps
    ensures SameView(Run(w, steps), Run(w, Own(steps, who)), who)
  {
    hide Sound, Next;
    if steps == [] {
      assert Enters(w, who) by { assert Sound(initial, w); HomesMatch(initial, w); }
    } else {
      var n := |steps| - 1;
      var step := steps[n];
      assert step in steps && forall s :: s in steps[..n] ==> s in steps;
      AloneInItsInterval(initial, w, steps[..n], who);
      RunKeepsSound(initial, w, steps[..n]);
      var before, alone := Run(w, steps[..n]), Run(w, Own(steps[..n], who));
      if step.who == who {
        OwnStepsAgree(before, alone, step);
        assert Own(steps, who)[..|Own(steps, who)| - 1] == Own(steps[..n], who);
      } else {
        OthersAreQuiet(initial, before, step, who);
        NextKeepsLocks(initial, before, step);
        assert Own(steps, who) == Own(steps[..n], who);
      }
    }
  }

  lemma HomesMatch(initial: Option<Contents>, w: World)
    requires Sound(initial, w)
    ensures |w.homes| == |w.stages|
  {
  }
}
