/** The scheduler's state and its atomic steps. Every critical section of the scheduler runs
    without suspending, so each is one step; the instants at which timers, callers, operations
    and the lifecycle task act are chosen freely by the environment. */
module SchedulerModel {
  import opened Common
  import opened Failures
  import opened DispatchBoard

  datatype JobState = Queued | Running | Finished

  /** The future the caller waits on before dispatch. */
  datatype Started = NotStarted | StartGranted | StartTimedOut | StartWithdrawn

  /** The future the caller waits on for its answer. */
  datatype Result = Pending | Own(outcome: Outcome) | UpstreamTimeout | Withdrawn

  datatype Operation = Unborn | Alive(beganAt: real) | Over(endedAt: real, own: Outcome)

  datatype Budget = Budget(startedAt: real, deadline: real)

  datatype Job = Job(
    priority: Priority,
    executionTimeout: real,
    enqueuedAt: real,
    queueDeadline: real,
    requestDeadline: Option<real>,
    state: JobState,
    started: Started,
    result: Result,
    callerCancelled: bool,
    queueTimedOut: bool,
    budget: Option<Budget>,
    op: Operation)

  datatype State = State(
    limits: PerClass<nat>,
    allotted: PerClass<int>,
    queues: PerClass<seq<nat>>,
    jobs: seq<Job>,
    current: Option<nat>,
    workerActive: bool,
    accepting: bool,
    idle: bool,
    clock: real,
    trace: seq<Event>)

  datatype Reply = Rejected(why: Rejection) | Accepted(id: nat)
  datatype Rejection = InvalidArgument | ShuttingDown | CapacityFull

  datatype Request = Request(
    priority: Priority,
    named: bool,
    queueTimeout: real,
    executionTimeout: real,
    requestDeadline: Option<real>)

  function Initial(limits: PerClass<nat>): State {
    State(limits, PerClass(0, 0), PerClass([], []), [], None, false, true, true, 0.0, [])
  }

  ghost predicate RefsTo(q: seq<nat>, jobs: seq<Job>, p: Priority) {
    forall i :: 0 <= i < |q| ==> q[i] < |jobs| && jobs[q[i]].priority == p
  }

  /** Queue entries name jobs of the queue's class. */
  ghost predicate Refs(s: State) {
    RefsTo(s.queues.first, s.jobs, Protected) && RefsTo(s.queues.second, s.jobs, Background)
  }

  predicate InQueue(s: State, id: nat) {
    id < |s.jobs| && id in s.queues.At(s.jobs[id].priority)
  }

  function EarlierOf(deadline: real, bound: Option<real>): real {
    if bound.Some? then Min(deadline, bound.value) else deadline
  }

  // ---------------------------------------------------------------------------------------
  // Pieces of critical sections.
  // ---------------------------------------------------------------------------------------

  function SetIdleIfDrained(s: State): State {
    if s.allotted == PerClass(0, 0) then s.(idle := true) else s
  }

  function ReleaseQueued(s: State, id: nat): State
    requires InQueue(s, id)
  {
    var p := s.jobs[id].priority;
    SetIdleIfDrained(s.(
      queues := s.queues.With(p, Without(s.queues.At(p), id)),
      jobs := s.jobs[id := s.jobs[id].(state := Finished)],
      allotted := s.allotted.With(p, s.allotted.At(p) - 1)))
  }

  function RemoveQueued(s: State, id: nat): State
    requires InQueue(s, id)
  {
    var r := ReleaseQueued(s, id);
    r.(jobs := r.jobs[id := r.jobs[id].(started := StartWithdrawn, result := Withdrawn)],
       trace := r.trace + [Removed(id, r.clock)])
  }

  function ExpireQueued(s: State, id: nat): State
    requires InQueue(s, id)
  {
    var r := ReleaseQueued(s, id);
    var job := r.jobs[id];
    r.(jobs := r.jobs[id := job.(
                              queueTimedOut := true,
                              started := if job.started.NotStarted? then StartTimedOut else job.started,
                              result := if job.result.Pending? then Withdrawn else job.result)],
       trace := r.trace + [Expired(id, r.clock)])
  }

  function Launch(s: State, id: nat): State
    requires InQueue(s, id)
  {
    var p := s.jobs[id].priority;
    s.(queues := s.queues.With(p, s.queues.At(p)[1..]),
       jobs := s.jobs[id := s.jobs[id].(state := Running, started := StartGranted)],
       workerActive := true,
       current := Some(id),
       trace := s.trace + [Dispatched(id, s.clock)])
  }

  /** Which job the dispatcher looks at: the oldest protected one, else the oldest background one. */
  function NextInLine(s: State): Option<nat> {
    if s.queues.first != [] then Some(s.queues.first[0])
    else if s.queues.second != [] then Some(s.queues.second[0])
    else None
  }

  lemma WithoutKeepsRefs(q: seq<nat>, id: nat, jobs: seq<Job>, p: Priority)
    requires RefsTo(q, jobs, p) && id in q
    ensures RefsTo(Without(q, id), jobs, p)
  {
    var i, r := IndexOf(q, id), Without(q, id);
    assert forall k :: 0 <= k < |r| ==> r[k] == if k < i then q[k] else q[k + 1];
  }

  lemma ReleaseKeepsRefs(s: State, id: nat)
    requires Refs(s) && InQueue(s, id)
    ensures Refs(ReleaseQueued(s, id))
  {
    var p := s.jobs[id].priority;
    WithoutKeepsRefs(s.queues.At(p), id, s.jobs, p);
  }

  lemma NextInLineWaits(s: State)
    requires Refs(s) && NextInLine(s).Some?
    ensures InQueue(s, NextInLine(s).value)
  {
  }

  function Dispatch(s: State): State
    requires Refs(s)
    decreases |s.queues.first| + |s.queues.second|
  {
    if s.workerActive then s
    else if NextInLine(s).None? then SetIdleIfDrained(s)
    else
      var id := NextInLine(s).value;
      NextInLineWaits(s);
      if s.jobs[id].queueDeadline > s.clock then Launch(s, id)
      else
        ReleaseKeepsRefs(s, id);
        Dispatch(ExpireQueued(s, id))
  }

  /** Both queues emptied in one critical section, in the given order. */
  function RemoveAll(s: State, ids: seq<nat>): State
    decreases |ids|
  {
    if ids == [] || !InQueue(s, ids[0]) then s else RemoveAll(RemoveQueued(s, ids[0]), ids[1..])
  }

  // ---------------------------------------------------------------------------------------
  // Steps. Each one first moves the clock; an instant in the past is no step at all.
  // ---------------------------------------------------------------------------------------

  function NewJob(s: State, r: Request): Job {
    Job(r.priority, r.executionTimeout, s.clock, EarlierOf(s.clock + r.queueTimeout, r.requestDeadline),
        r.requestDeadline, Queued, NotStarted, Pending, false, false, None, Unborn)
  }

  function Admit(s: State, job: Job): State {
    var p := job.priority;
    s.(allotted := s.allotted.With(p, s.allotted.At(p) + 1),
       queues := s.queues.With(p, s.queues.At(p) + [|s.jobs|]),
       jobs := s.jobs + [job],
       idle := false,
       trace := s.trace + [Admitted(|s.jobs|, Ticket(p, job.queueDeadline), s.clock)])
  }

  function Refusal(s: State, r: Request): Option<Rejection> {
    if !r.named || r.queueTimeout <= 0.0 || r.executionTimeout <= 0.0 then Some(InvalidArgument)
    else if !s.accepting then Some(ShuttingDown)
    else if s.allotted.At(r.priority) >= s.limits.At(r.priority) then Some(CapacityFull)
    else None
  }

  lemma AdmitKeepsRefs(s: State, job: Job)
    requires Refs(s)
    ensures Refs(Admit(s, job))
  {
  }

  function Submit(s: State, r: Request): (State, Reply)
    requires Refs(s)
  {
    if Refusal(s, r).Some? then (s, Rejected(Refusal(s, r).value))
    else
      AdmitKeepsRefs(s, NewJob(s, r));
      (Dispatch(Admit(s, NewJob(s, r))), Accepted(|s.jobs|))
  }

  /** The caller's wait for a start reached its deadline. */
  function QueueTimer(s: State, id: nat): State {
    if InQueue(s, id) && s.jobs[id].state == Queued && s.jobs[id].queueDeadline <= s.clock then ExpireQueued(s, id)
    else s
  }

  function CallerCancel(s: State, id: nat): State {
    if id >= |s.jobs| then s
    else if s.jobs[id].state == Queued && InQueue(s, id) then RemoveQueued(s, id)
    else if s.jobs[id].state == Running then s.(jobs := s.jobs[id := s.jobs[id].(callerCancelled := true)])
    else s
  }

  predicate HasCurrent(s: State) {
    s.current.Some? && s.current.value < |s.jobs|
  }

  function WithCurrent(s: State, job: Job): State
    requires HasCurrent(s)
  {
    s.(jobs := s.jobs[s.current.value := job])
  }

  /** The lifecycle task gets the event loop for the first time. */
  function RunStarts(s: State): State {
    if HasCurrent(s) && s.jobs[s.current.value].budget.None? then
      var job := s.jobs[s.current.value];
      WithCurrent(s, job.(budget := Some(Budget(s.clock, EarlierOf(s.clock + job.executionTimeout, job.requestDeadline)))))
    else s
  }

  function OperationBegins(s: State): State {
    if HasCurrent(s) && s.jobs[s.current.value].budget.Some? && s.jobs[s.current.value].op.Unborn? then
      WithCurrent(s, s.jobs[s.current.value].(op := Alive(s.clock)))
      .(trace := s.trace + [OperationBegan(s.current.value, s.clock)])
    else s
  }

  function OperationEnds(s: State, own: Outcome): State {
    if HasCurrent(s) && s.jobs[s.current.value].op.Alive? then
      WithCurrent(s, s.jobs[s.current.value].(op := Over(s.clock, own)))
      .(trace := s.trace + [OperationEnded(s.current.value, s.clock)])
    else s
  }

  /** What the finished operation earns, unless the answer was given already. */
  function Verdict(job: Job): Result
    requires job.op.Over? && job.budget.Some?
  {
    if job.op.endedAt <= job.budget.value.deadline then Own(job.op.own) else UpstreamTimeout
  }

  /** Give the slot and the allocation back, without looking for successors yet. */
  function Vacate(s: State): State
    requires HasCurrent(s)
  {
    var id := s.current.value;
    var p := s.jobs[id].priority;
    s.(jobs := s.jobs[id := s.jobs[id].(state := Finished)],
       allotted := s.allotted.With(p, s.allotted.At(p) - 1),
       workerActive := false,
       current := None,
       trace := s.trace + [Released(id, s.clock)])
  }

  function Finish(s: State): State
    requires HasCurrent(s) && Refs(s)
  {
    SetIdleIfDrained(Dispatch(Vacate(s)))
  }

  /** The lifecycle task wakes: an operation that is over settles the answer and frees the
      slot; a deadline that has passed settles a timeout and keeps the slot for the drain. */
  function LifecycleWakes(s: State): State
    requires Refs(s)
  {
    if !HasCurrent(s) || s.jobs[s.current.value].budget.None? then s
    else
      var job := s.jobs[s.current.value];
      if job.op.Over? then
        Finish(WithCurrent(s, job.(result := if job.result.Pending? then Verdict(job) else job.result)))
      else if job.budget.value.deadline <= s.clock && job.result.Pending? then
        WithCurrent(s, job.(result := UpstreamTimeout))
      else s
  }

  function Shutdown(s: State): State {
    var r := RemoveAll(s.(accepting := false), s.queues.first + s.queues.second);
    r.(trace := r.trace + [Stopped(r.clock)])
  }

  datatype Step =
    | Submission(request: Request)
    | QueueTimeout(id: nat)
    | Cancellation(id: nat)
    | LifecycleStarts
    | OperationStarts
    | OperationStops(own: Outcome)
    | LifecycleRuns
    | ShutdownCalled

  function Apply(s: State, step: Step, at: real): State
    requires Refs(s)
  {
    if at < s.clock then s else
    var t := s.(clock := at);
    match step
    case Submission(r) => Submit(t, r).0
    case QueueTimeout(id) => QueueTimer(t, id)
    case Cancellation(id) => CallerCancel(t, id)
    case LifecycleStarts => RunStarts(t)
    case OperationStarts => OperationBegins(t)
    case OperationStops(own) => OperationEnds(t, own)
    case LifecycleRuns => LifecycleWakes(t)
    case ShutdownCalled => Shutdown(t)
  }
}
