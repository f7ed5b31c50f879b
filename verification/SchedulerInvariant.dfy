/** The invariant every step of the scheduler keeps, and what it says about each job. */
module SchedulerInvariant {
  import opened Common
  import opened Failures
  import opened DispatchBoard
  import opened SchedulerModel

  /** The lifecycle of one job, from where it stands and the time. */
  ghost predicate JobOk(job: Job, waiting: bool, current: bool, clock: real) {
    && (job.state == Queued <==> waiting)
    && (job.state == Running <==> current)
    && (waiting ==>
          && job.started.NotStarted? && job.result.Pending? && !job.queueTimedOut
          && job.budget.None? && job.op.Unborn? && !job.callerCancelled)
    && (current ==> job.started.StartGranted? && !job.queueTimedOut && !job.result.Own?)
    && (job.state == Finished ==> !job.result.Pending? && !job.started.NotStarted?)
    && (job.state == Finished && job.started.StartGranted? ==> job.op.Over?)
    // A job that never started was withdrawn or timed out, and ran nothing.
    && (job.result.Withdrawn? <==> job.started.StartTimedOut? || job.started.StartWithdrawn?)
    && (job.queueTimedOut <==> job.started.StartTimedOut?)
    && (job.queueTimedOut ==> job.queueDeadline <= clock)
    && (job.result.Withdrawn? ==> job.budget.None? && job.op.Unborn?)
    && BudgetOk(job, clock)
    && AnswerOk(job, clock)
  }

  /** The execution budget starts when the lifecycle task does and is never renewed. */
  ghost predicate BudgetOk(job: Job, clock: real) {
    && (!job.op.Unborn? ==> job.budget.Some?)
    && (job.budget.Some? ==>
          && job.budget.value.startedAt <= clock
          && job.budget.value.deadline == EarlierOf(job.budget.value.startedAt + job.executionTimeout, job.requestDeadline))
    && (job.op.Alive? ==> job.budget.value.startedAt <= job.op.beganAt <= clock)
    && (job.op.Over? ==> job.budget.value.startedAt <= job.op.endedAt <= clock)
    && (job.requestDeadline.Some? ==> job.queueDeadline <= job.requestDeadline.value)
  }

  /** Which answer a job may hold. */
  ghost predicate AnswerOk(job: Job, clock: real) {
    && (job.result.Own? ==>
          && job.op.Over? && job.budget.Some?
          && job.result.outcome == job.op.own && job.op.endedAt <= job.budget.value.deadline)
    && (job.result.UpstreamTimeout? ==>
          && job.budget.Some?
          && job.budget.value.deadline <= clock
          && (job.op.Over? ==> job.budget.value.deadline <= job.op.endedAt))
  }

  ghost predicate JobsOk(s: State) {
    forall id :: 0 <= id < |s.jobs| ==> JobOk(s.jobs[id], InQueue(s, id), s.current == Some(id), s.clock)
  }

  function PhaseOf(op: Operation): OperationPhase {
    match op
    case Unborn => NotBegun
    case Alive(_) => Live
    case Over(_, _) => Ended
  }

  /** The trace is a legal history and its board is the state's own view. */
  ghost predicate Mirrors(s: State) {
    && Legal(s.trace, s.limits)
    && var b := Replay(s.trace, s.limits).value;
    && b.queues == s.queues
    && b.current == s.current
    && b.clock <= s.clock
    && |b.tickets| == |s.jobs|
    && (forall i :: 0 <= i < |s.jobs| ==> b.tickets[i] == Ticket(s.jobs[i].priority, s.jobs[i].queueDeadline))
    && (s.current.Some? && s.current.value < |s.jobs| ==> b.phase == PhaseOf(s.jobs[s.current.value].op))
    && (b.stopped ==> !s.accepting)
  }

  function CountOf(s: State, p: Priority): nat {
    |s.queues.At(p)| + if HasCurrent(s) && s.jobs[s.current.value].priority == p then 1 else 0
  }

  /** Allocations are exactly the waiting jobs and the running one. */
  ghost predicate Accounts(s: State) {
    s.allotted.first == CountOf(s, Protected) && s.allotted.second == CountOf(s, Background)
  }

  /** What holds between the pieces of a critical section. */
  ghost predicate Core(s: State) {
    && Refs(s)
    && Mirrors(s)
    && JobsOk(s)
    && Accounts(s)
    && (s.workerActive <==> s.current.Some?)
    && (s.current.Some? ==> s.current.value < |s.jobs|)
    && (s.idle ==> s.allotted == PerClass(0, 0))
  }

  /** What holds between steps. */
  ghost predicate Inv(s: State) {
    && Core(s)
    && (s.allotted == PerClass(0, 0) ==> s.idle)
    // Work conserving: a free slot means nobody waits.
    && (!s.workerActive ==> s.queues == PerClass([], []))
    && (!s.accepting ==> s.queues == PerClass([], []))
  }

  lemma CapacityRespected(s: State)
    requires Core(s)
    ensures s.allotted.first <= s.limits.first && s.allotted.second <= s.limits.second
  {
    LegalBoardOk(s.trace, s.limits);
  }

  /** The queues of a state whose trace is legal are what their board promises. */
  lemma QueuesAscend(s: State)
    requires Core(s)
    ensures Ascending(s.queues.first) && Ascending(s.queues.second)
    ensures s.current.Some? ==> !InQueue(s, s.current.value)
  {
    LegalBoardOk(s.trace, s.limits);
  }

  /** One more event and the state that goes with it. */
  lemma MirrorsNext(s: State, e: Event, r: State)
    requires Mirrors(s) && Allowed(Replay(s.trace, s.limits).value, e, s.limits)
    requires r.trace == s.trace + [e] && r.limits == s.limits
    ensures Legal(r.trace, r.limits)
    ensures Replay(r.trace, r.limits).value == Play(Replay(s.trace, s.limits).value, e, s.limits)
  {
    ReplaySnoc(s.trace, e, s.limits);
  }

  lemma ClockForward(s: State, at: real)
    requires Inv(s) && s.clock <= at
    ensures Inv(s.(clock := at))
  {
    var t := s.(clock := at);
    forall id | 0 <= id < |t.jobs|
      ensures JobOk(t.jobs[id], InQueue(t, id), t.current == Some(id), t.clock)
    {
      assert JobOk(s.jobs[id], InQueue(s, id), s.current == Some(id), s.clock);
      assert InQueue(t, id) == InQueue(s, id);
    }
  }

  ghost predicate SameFrame(s: State, r: State) {
    r.accepting == s.accepting && r.clock == s.clock && r.limits == s.limits
  }

  /** Only job `id` changed, and everybody else waits or runs as before. */
  lemma JobsOkNext(s: State, r: State, id: nat)
    requires JobsOk(s) && id < |s.jobs| == |r.jobs| && r.clock == s.clock
    requires forall k :: 0 <= k < |s.jobs| && k != id ==>
               r.jobs[k] == s.jobs[k] && InQueue(r, k) == InQueue(s, k) && (r.current == Some(k)) == (s.current == Some(k))
    requires JobOk(r.jobs[id], InQueue(r, id), r.current == Some(id), r.clock)
    ensures JobsOk(r)
  {
    forall k | 0 <= k < |r.jobs|
      ensures JobOk(r.jobs[k], InQueue(r, k), r.current == Some(k), r.clock)
    {
      if k != id {
        assert JobOk(s.jobs[k], InQueue(s, k), s.current == Some(k), s.clock);
      }
    }
  }

  // ---------------------------------------------------------------------------------------
  // Leaving the queue without running.
  // ---------------------------------------------------------------------------------------

  lemma CoreRefs(s: State)
    requires Core(s)
    ensures Refs(s)
  {
    hide Mirrors, JobsOk, Accounts, Refs;
  }

  lemma ReleasedQueues(s: State, id: nat)
    requires Core(s) && InQueue(s, id)
    ensures var p, r := s.jobs[id].priority, ReleaseQueued(s, id);
            && Refs(r)
            && !InQueue(r, id)
            && (forall other | other != id :: InQueue(r, other) == InQueue(s, other))
            && |r.queues.At(p)| == |s.queues.At(p)| - 1
  {
    hide Core, Refs, ReleaseQueued, InQueue;
    CoreRefs(s);
    QueuesAscend(s);
    ReleaseKeepsRefs(s, id);
    ReleasedLeaves(s, id);
  }

  lemma ReleasedLeaves(s: State, id: nat)
    requires InQueue(s, id) && Ascending(s.queues.first) && Ascending(s.queues.second)
    ensures var p, r := s.jobs[id].priority, ReleaseQueued(s, id);
            && !InQueue(r, id)
            && (forall other | other != id :: InQueue(r, other) == InQueue(s, other))
            && |r.queues.At(p)| == |s.queues.At(p)| - 1
  {
    hide Ascending, Without;
    var p, r := s.jobs[id].priority, ReleaseQueued(s, id);
    WithoutLeaves(s.queues.At(p), id);
    forall other: nat | other != id
      ensures InQueue(r, other) == InQueue(s, other)
    {
      if other < |s.jobs| {
        assert r.jobs[other].priority == s.jobs[other].priority;
      }
    }
  }

  lemma WithoutLeaves(q: seq<nat>, id: nat)
    requires Ascending(q) && id in q
    ensures |Without(q, id)| == |q| - 1
    ensures forall y :: y in Without(q, id) <==> y in q && y != id
  {
    WithoutAscending(q, id);
  }

  lemma LeaveMirrors(s: State, id: nat, e: Event, r: State)
    requires Mirrors(s) && InQueue(s, id)
    requires e == Removed(id, s.clock) || (e == Expired(id, s.clock) && s.jobs[id].queueDeadline <= s.clock)
    requires r.trace == s.trace + [e] && r.limits == s.limits && r.clock == s.clock
    requires r.current == s.current && r.accepting == s.accepting && s.current != Some(id)
    requires r.queues == s.queues.With(s.jobs[id].priority, Without(s.queues.At(s.jobs[id].priority), id))
    requires |r.jobs| == |s.jobs|
    requires forall k :: 0 <= k < |s.jobs| && k != id ==> r.jobs[k] == s.jobs[k]
    requires r.jobs[id].priority == s.jobs[id].priority && r.jobs[id].queueDeadline == s.jobs[id].queueDeadline
    ensures Mirrors(r)
  {
    MirrorsNext(s, e, r);
  }

  lemma WaitingJob(s: State, id: nat)
    requires Core(s) && InQueue(s, id)
    ensures JobOk(s.jobs[id], true, false, s.clock)
    ensures s.current != Some(id)
  {
    QueuesAscend(s);
  }

  lemma LeaveAccounts(s: State, id: nat, r: State)
    requires Core(s) && InQueue(s, id)
    requires r.queues == ReleaseQueued(s, id).queues && r.allotted == ReleaseQueued(s, id).allotted
    requires r.current == s.current && |r.jobs| == |s.jobs|
    requires forall k :: 0 <= k < |s.jobs| ==> r.jobs[k].priority == s.jobs[k].priority
    ensures Accounts(r)
  {
    ReleasedQueues(s, id);
  }

  lemma LeaveJobs(s: State, id: nat, job: Job, r: State)
    requires Core(s) && InQueue(s, id)
    requires job.priority == s.jobs[id].priority
    requires JobOk(job, false, false, s.clock)
    requires r.queues == ReleaseQueued(s, id).queues && r.jobs == s.jobs[id := job]
    requires r.current == s.current && r.clock == s.clock
    ensures JobsOk(r) && Refs(r)
  {
    hide Mirrors, Accounts, Without;
    WaitingJob(s, id);
    ReleasedQueues(s, id);
    JobsOkNext(s, r, id);
  }

  /** Leaving the queue for good, with `job` as the record and `e` as the event. */
  lemma LeaveKeepsCore(s: State, id: nat, job: Job, e: Event, r: State)
    requires Core(s) && InQueue(s, id)
    requires e == Removed(id, s.clock) || (e == Expired(id, s.clock) && s.jobs[id].queueDeadline <= s.clock)
    requires job.priority == s.jobs[id].priority && job.queueDeadline == s.jobs[id].queueDeadline
    requires JobOk(job, false, false, s.clock)
    requires r == ReleaseQueued(s, id).(jobs := s.jobs[id := job], trace := s.trace + [e])
    ensures Core(r)
  {
    hide Mirrors, JobsOk;
    assert s.current != Some(id) by { WaitingJob(s, id); }
    assert JobsOk(r) && Refs(r) by { LeaveJobs(s, id, job, r); }
    assert Mirrors(r) by { LeaveMirrors(s, id, e, r); }
    assert Accounts(r) by { LeaveAccounts(s, id, r); }
  }

  function ExpiredJob(job: Job): Job {
    job.(state := Finished, queueTimedOut := true, started := StartTimedOut, result := Withdrawn)
  }

  function RemovedJob(job: Job): Job {
    job.(state := Finished, started := StartWithdrawn, result := Withdrawn)
  }

  lemma ExpireKeepsCore(s: State, id: nat)
    requires Core(s) && InQueue(s, id) && s.jobs[id].queueDeadline <= s.clock
    ensures Core(ExpireQueued(s, id))
  {
    WaitingJob(s, id);
    LeaveKeepsCore(s, id, ExpiredJob(s.jobs[id]), Expired(id, s.clock), ExpireQueued(s, id));
  }

  lemma RemoveKeepsCore(s: State, id: nat)
    requires Core(s) && InQueue(s, id)
    ensures Core(RemoveQueued(s, id))
  {
    WaitingJob(s, id);
    LeaveKeepsCore(s, id, RemovedJob(s.jobs[id]), Removed(id, s.clock), RemoveQueued(s, id));
  }

  // ---------------------------------------------------------------------------------------
  // Dispatch.
  // ---------------------------------------------------------------------------------------

  /** The head of an ascending queue leaves it. */
  lemma HeadLeaves(q: seq<nat>)
    requires Ascending(q) && q != []
    ensures q[0] !in q[1..]
    ensures forall other :: other != q[0] ==> (other in q[1..] <==> other in q)
  {
    assert q == [q[0]] + q[1..];
  }

  lemma LaunchedQueues(s: State)
    requires Core(s) && NextInLine(s).Some?
    ensures var id := NextInLine(s).value;
            var p, r := s.jobs[id].priority, Launch(s, id);
            && InQueue(s, id)
            && s.queues.At(p)[0] == id
            && Refs(r)
            && !InQueue(r, id)
            && (forall other | other != id :: InQueue(r, other) == InQueue(s, other))
  {
    var id := NextInLine(s).value;
    NextInLineWaits(s);
    assert Ascending(s.queues.At(s.jobs[id].priority)) by { QueuesAscend(s); }
    HeadLeaves(s.queues.At(s.jobs[id].priority));
  }

  lemma LaunchMirrors(s: State)
    requires Core(s) && !s.workerActive && NextInLine(s).Some?
    requires s.jobs[NextInLine(s).value].queueDeadline > s.clock
    ensures InQueue(s, NextInLine(s).value) && Mirrors(Launch(s, NextInLine(s).value))
  {
    var id := NextInLine(s).value;
    LaunchedQueues(s);
    WaitingJob(s, id);
    MirrorsNext(s, Dispatched(id, s.clock), Launch(s, id));
  }

  lemma LaunchKeepsCore(s: State)
    requires Core(s) && !s.workerActive && NextInLine(s).Some?
    requires s.jobs[NextInLine(s).value].queueDeadline > s.clock
    ensures InQueue(s, NextInLine(s).value) && Core(Launch(s, NextInLine(s).value))
  {
    var id := NextInLine(s).value;
    var r := Launch(s, id);
    LaunchedQueues(s);
    WaitingJob(s, id);
    assert Mirrors(r) by { LaunchMirrors(s); }
    assert JobsOk(r) by { JobsOkNext(s, r, id); }
  }

  /** Dispatch leaves nobody waiting beside a free slot. */
  lemma {:induction false} DispatchKeepsCore(s: State)
    requires Core(s)
    ensures var r := Dispatch(s);
            && Core(r)
            && (!r.workerActive ==> r.queues == PerClass([], []))
            && (s.queues == PerClass([], []) ==> r.queues == PerClass([], []))
            && (s.allotted == PerClass(0, 0) && !s.workerActive ==> r.idle)
            && SameFrame(s, r)
    decreases |s.queues.first| + |s.queues.second|
  {
    hide Mirrors, JobsOk, JobOk, Without;
    if !s.workerActive && NextInLine(s).Some? {
      var id := NextInLine(s).value;
      NextInLineWaits(s);
      if s.jobs[id].queueDeadline > s.clock {
        LaunchKeepsCore(s);
      } else {
        ReleasedQueues(s, id);
        ExpireKeepsCore(s, id);
        DispatchKeepsCore(ExpireQueued(s, id));
      }
    } else if !s.workerActive {
      IdleKeepsCore(s);
    }
  }

  lemma IdleKeepsCore(s: State)
    requires Core(s)
    ensures Core(SetIdleIfDrained(s))
  {
    hide JobOk, Legal, Replay;
    assert JobsOk(SetIdleIfDrained(s)) by {
      forall id | 0 <= id < |s.jobs|
        ensures JobOk(s.jobs[id], InQueue(SetIdleIfDrained(s), id), s.current == Some(id), s.clock)
      {
        assert JobOk(s.jobs[id], InQueue(s, id), s.current == Some(id), s.clock);
      }
    }
  }

  // ---------------------------------------------------------------------------------------
  // Admission.
  // ---------------------------------------------------------------------------------------

  lemma AppendedQueues(s: State, job: Job)
    requires Core(s)
    ensures var r := Admit(s, job);
            && Refs(r)
            && InQueue(r, |s.jobs|)
            && (forall other | other != |s.jobs| :: InQueue(r, other) == InQueue(s, other))
  {
    AdmitKeepsRefs(s, job);
    var r := Admit(s, job);
    var q := s.queues.At(job.priority);
    assert (q + [|s.jobs|])[|q|] == |s.jobs|;
    forall other: nat | other != |s.jobs|
      ensures InQueue(r, other) == InQueue(s, other)
    {
      if other < |s.jobs| {
        assert r.jobs[other] == s.jobs[other];
      }
    }
  }

  lemma AdmitMirrors(s: State, job: Job)
    requires Core(s) && s.accepting
    requires s.allotted.At(job.priority) < s.limits.At(job.priority)
    ensures Mirrors(Admit(s, job))
  {
    MirrorsNext(s, Admitted(|s.jobs|, Ticket(job.priority, job.queueDeadline), s.clock), Admit(s, job));
  }

  lemma AdmitKeepsCore(s: State, job: Job)
    requires Core(s) && s.accepting
    requires s.allotted.At(job.priority) < s.limits.At(job.priority)
    requires JobOk(job, true, false, s.clock)
    ensures Core(Admit(s, job))
  {
    var r := Admit(s, job);
    AppendedQueues(s, job);
    assert Mirrors(r) by { AdmitMirrors(s, job); }
    forall k | 0 <= k < |r.jobs|
      ensures JobOk(r.jobs[k], InQueue(r, k), r.current == Some(k), r.clock)
    {
      if k < |s.jobs| {
        assert JobOk(s.jobs[k], InQueue(s, k), s.current == Some(k), s.clock);
      }
    }
  }

  // ---------------------------------------------------------------------------------------
  // The running job.
  // ---------------------------------------------------------------------------------------

  lemma RunningJob(s: State)
    requires Core(s) && s.current.Some?
    ensures JobOk(s.jobs[s.current.value], false, true, s.clock)
    ensures HasCurrent(s) && !InQueue(s, s.current.value)
  {
    QueuesAscend(s);
    var id := s.current.value;
    assert JobOk(s.jobs[id], InQueue(s, id), s.current == Some(id), s.clock);
  }

  /** The running job's record changes, perhaps with one event. */
  lemma CurrentKeepsCore(s: State, job: Job, r: State)
    requires Core(s) && HasCurrent(s)
    requires job.priority == s.jobs[s.current.value].priority
    requires job.queueDeadline == s.jobs[s.current.value].queueDeadline
    requires JobOk(job, false, true, s.clock)
    requires r == WithCurrent(s, job).(trace := r.trace)
    requires Mirrors(r)
    ensures Core(r)
  {
    RunningJob(s);
    var id := s.current.value;
    assert forall k | k != id :: InQueue(r, k) == InQueue(s, k);
    assert JobsOk(r) by { JobsOkNext(s, r, id); }
  }

  lemma QuietMirrors(s: State, job: Job)
    requires Core(s) && HasCurrent(s)
    requires job.priority == s.jobs[s.current.value].priority
    requires job.queueDeadline == s.jobs[s.current.value].queueDeadline
    requires job.op == s.jobs[s.current.value].op
    ensures Mirrors(WithCurrent(s, job))
  {
  }

  lemma EventMirrors(s: State, job: Job, e: Event, r: State)
    requires Core(s) && HasCurrent(s)
    requires var old_ := s.jobs[s.current.value];
             && job == old_.(op := job.op)
             && ((e == OperationBegan(s.current.value, s.clock) && old_.op.Unborn? && job.op.Alive?)
                 || (e == OperationEnded(s.current.value, s.clock) && old_.op.Alive? && job.op.Over?))
    requires r == WithCurrent(s, job).(trace := s.trace + [e])
    ensures Mirrors(r)
  {
    MirrorsNext(s, e, r);
  }

  /** The answer a finished operation's record ends up with. */
  function SettledJob(job: Job): Job
    requires job.op.Over? && job.budget.Some?
  {
    job.(result := if job.result.Pending? then Verdict(job) else job.result)
  }

  lemma VacateMirrors(s: State)
    requires Mirrors(s) && HasCurrent(s) && s.jobs[s.current.value].op.Over?
    ensures Mirrors(Vacate(s))
  {
    MirrorsNext(s, Released(s.current.value, s.clock), Vacate(s));
  }

  lemma VacatedMirrors(s: State)
    requires Core(s) && HasCurrent(s)
    requires s.jobs[s.current.value].budget.Some? && s.jobs[s.current.value].op.Over?
    ensures Mirrors(Vacate(WithCurrent(s, SettledJob(s.jobs[s.current.value]))))
  {
    hide Mirrors, JobsOk, Accounts, Refs;
    var job := SettledJob(s.jobs[s.current.value]);
    QuietMirrors(s, job);
    VacateMirrors(WithCurrent(s, job));
  }

  lemma VacatedJobs(s: State)
    requires Core(s) && HasCurrent(s)
    requires s.jobs[s.current.value].budget.Some? && s.jobs[s.current.value].op.Over?
    ensures JobsOk(Vacate(WithCurrent(s, SettledJob(s.jobs[s.current.value]))))
  {
    hide Mirrors, Accounts, Refs;
    var id := s.current.value;
    var r := Vacate(WithCurrent(s, SettledJob(s.jobs[id])));
    RunningJob(s);
    assert forall k | k != id :: InQueue(r, k) == InQueue(s, k);
    JobsOkNext(s, r, id);
  }

  /** The operation is over: its answer is settled and the slot is given back. */
  lemma VacateKeepsCore(s: State)
    requires Core(s) && HasCurrent(s)
    requires s.jobs[s.current.value].budget.Some? && s.jobs[s.current.value].op.Over?
    ensures var r := Vacate(WithCurrent(s, SettledJob(s.jobs[s.current.value])));
            Core(r) && SameFrame(s, r) && !r.workerActive && r.queues == s.queues
  {
    hide Mirrors, JobsOk, JobOk;
    VacatedMirrors(s);
    VacatedJobs(s);
  }

  // ---------------------------------------------------------------------------------------
  // Steps and runs.
  // ---------------------------------------------------------------------------------------

  lemma NewJobOk(s: State, r: Request)
    ensures JobOk(NewJob(s, r), true, false, s.clock)
  {
  }

  lemma SubmitKeepsInv(s: State, r: Request)
    requires Inv(s)
    ensures Inv(Submit(s, r).0) && SameFrame(s, Submit(s, r).0)
  {
    if Refusal(s, r).None? {
      NewJobOk(s, r);
      AdmitKeepsCore(s, NewJob(s, r));
      var a := Admit(s, NewJob(s, r));
      DispatchKeepsCore(a);
      IdleAfterDispatch(a);
    }
  }

  /** Dispatch notices when its own expiries drain the scheduler. */
  lemma {:induction false} IdleAfterDispatch(s: State)
    requires Core(s)
    requires s.allotted != PerClass(0, 0) || !s.workerActive
    ensures Dispatch(s).allotted == PerClass(0, 0) ==> Dispatch(s).idle
    decreases |s.queues.first| + |s.queues.second|
  {
    if !s.workerActive && NextInLine(s).Some? {
      var id := NextInLine(s).value;
      NextInLineWaits(s);
      if s.jobs[id].queueDeadline > s.clock {
        LaunchKeepsCore(s);
      } else {
        ReleasedQueues(s, id);
        ExpireKeepsCore(s, id);
        IdleAfterDispatch(ExpireQueued(s, id));
      }
    }
  }

  lemma LeavingKeepsInv(s: State, id: nat, r: State)
    requires Inv(s) && InQueue(s, id) && Core(r)
    requires r.queues == ReleaseQueued(s, id).queues && r.allotted == ReleaseQueued(s, id).allotted
    requires r.idle == ReleaseQueued(s, id).idle
    requires r.workerActive == s.workerActive && r.accepting == s.accepting
    ensures Inv(r)
  {
  }

  lemma QueueTimerKeepsInv(s: State, id: nat)
    requires Inv(s)
    ensures Inv(QueueTimer(s, id)) && QueueTimer(s, id).clock == s.clock
  {
    if QueueTimer(s, id) != s {
      ExpireKeepsCore(s, id);
      LeavingKeepsInv(s, id, ExpireQueued(s, id));
    }
  }

  lemma CallerCancelKeepsInv(s: State, id: nat)
    requires Inv(s)
    ensures Inv(CallerCancel(s, id)) && CallerCancel(s, id).clock == s.clock
  {
    if id < |s.jobs| && s.jobs[id].state == Queued && InQueue(s, id) {
      RemoveKeepsCore(s, id);
      LeavingKeepsInv(s, id, RemoveQueued(s, id));
    } else if id < |s.jobs| && s.jobs[id].state == Running {
      assert JobOk(s.jobs[id], InQueue(s, id), s.current == Some(id), s.clock);
      var job := s.jobs[id].(callerCancelled := true);
      QuietMirrors(s, job);
      CurrentKeepsCore(s, job, WithCurrent(s, job));
    }
  }

  lemma RunStartsKeepsInv(s: State)
    requires Inv(s)
    ensures Inv(RunStarts(s)) && RunStarts(s).clock == s.clock
  {
    if HasCurrent(s) && s.jobs[s.current.value].budget.None? {
      assert JobOk(s.jobs[s.current.value], false, true, s.clock) by { RunningJob(s); }
      var job := RunStarts(s).jobs[s.current.value];
      assert Mirrors(WithCurrent(s, job)) by { QuietMirrors(s, job); }
      CurrentKeepsCore(s, job, WithCurrent(s, job));
    }
  }

  lemma OperationBeginsKeepsInv(s: State)
    requires Inv(s)
    ensures Inv(OperationBegins(s)) && OperationBegins(s).clock == s.clock
  {
    if OperationBegins(s) != s {
      RunningJob(s);
      var job := s.jobs[s.current.value].(op := Alive(s.clock));
      EventMirrors(s, job, OperationBegan(s.current.value, s.clock), OperationBegins(s));
      CurrentKeepsCore(s, job, OperationBegins(s));
    }
  }

  lemma OperationEndsKeepsInv(s: State, own: Outcome)
    requires Inv(s)
    ensures Inv(OperationEnds(s, own)) && OperationEnds(s, own).clock == s.clock
  {
    if OperationEnds(s, own) != s {
      RunningJob(s);
      var job := s.jobs[s.current.value].(op := Over(s.clock, own));
      EventMirrors(s, job, OperationEnded(s.current.value, s.clock), OperationEnds(s, own));
      CurrentKeepsCore(s, job, OperationEnds(s, own));
    }
  }

  lemma FinishKeepsInv(s: State)
    requires Core(s) && HasCurrent(s) && (!s.accepting ==> s.queues == PerClass([], []))
    requires s.jobs[s.current.value].budget.Some? && s.jobs[s.current.value].op.Over?
    ensures var r := Finish(WithCurrent(s, SettledJob(s.jobs[s.current.value])));
            Inv(r) && SameFrame(s, r)
  {
    VacateKeepsCore(s);
    DispatchKeepsCore(Vacate(WithCurrent(s, SettledJob(s.jobs[s.current.value]))));
  }

  lemma DeadlineKeepsInv(s: State)
    requires Inv(s) && HasCurrent(s)
    requires var job := s.jobs[s.current.value];
             job.budget.Some? && !job.op.Over? && job.budget.value.deadline <= s.clock && job.result.Pending?
    ensures Inv(WithCurrent(s, s.jobs[s.current.value].(result := UpstreamTimeout)))
  {
    RunningJob(s);
    var job := s.jobs[s.current.value].(result := UpstreamTimeout);
    QuietMirrors(s, job);
    CurrentKeepsCore(s, job, WithCurrent(s, job));
  }

  lemma LifecycleKeepsInv(s: State)
    requires Inv(s)
    ensures Inv(LifecycleWakes(s)) && SameFrame(s, LifecycleWakes(s))
  {
    if HasCurrent(s) && s.jobs[s.current.value].budget.Some? {
      var old_ := s.jobs[s.current.value];
      if old_.op.Over? {
        FinishKeepsInv(s);
      } else if old_.budget.value.deadline <= s.clock && old_.result.Pending? {
        DeadlineKeepsInv(s);
      }
    }
  }

  ghost predicate Sweepable(s: State) {
    && Core(s)
    && (s.allotted == PerClass(0, 0) ==> s.idle)
    && (!s.workerActive ==> s.queues == PerClass([], []))
  }

  lemma RemoveSweeps(s: State, id: nat)
    requires Sweepable(s) && InQueue(s, id)
    ensures var t := RemoveQueued(s, id);
            && Sweepable(t) && SameFrame(s, t) && t.workerActive == s.workerActive
            && !InQueue(t, id)
            && (forall k | k != id :: InQueue(t, k) == InQueue(s, k))
  {
    RemoveKeepsCore(s, id);
    ReleasedQueues(s, id);
  }

  lemma {:induction false} RemoveAllSweeps(s: State, ids: seq<nat>)
    requires Sweepable(s)
    ensures Sweepable(RemoveAll(s, ids)) && SameFrame(s, RemoveAll(s, ids))
    decreases |ids|
  {
    if ids != [] && InQueue(s, ids[0]) {
      assert Sweepable(RemoveQueued(s, ids[0])) && SameFrame(s, RemoveQueued(s, ids[0])) by {
        RemoveSweeps(s, ids[0]);
      }
      RemoveAllSweeps(RemoveQueued(s, ids[0]), ids[1..]);
    }
  }

  ghost predicate AllWait(s: State, ids: seq<nat>) {
    && (forall i :: 0 <= i < |ids| ==> InQueue(s, ids[i]))
    && (forall i, j :: 0 <= i < j < |ids| ==> ids[i] != ids[j])
  }

  lemma AllWaitTail(s: State, ids: seq<nat>)
    requires Sweepable(s) && AllWait(s, ids) && ids != []
    ensures AllWait(RemoveQueued(s, ids[0]), ids[1..])
    ensures !InQueue(RemoveQueued(s, ids[0]), ids[0])
    ensures forall k :: InQueue(RemoveQueued(s, ids[0]), k) ==> InQueue(s, k)
  {
    RemoveSweeps(s, ids[0]);
  }

  /** Removing the jobs listed leaves only jobs not listed. */
  lemma {:induction false} RemoveAllEmpties(s: State, ids: seq<nat>)
    requires Sweepable(s) && AllWait(s, ids)
    ensures forall k :: InQueue(RemoveAll(s, ids), k) ==> InQueue(s, k) && k !in ids
    decreases |ids|
  {
    hide Sweepable, RemoveQueued;
    if ids != [] {
      AllWaitTail(s, ids);
      RemoveSweeps(s, ids[0]);
      RemoveAllEmpties(RemoveQueued(s, ids[0]), ids[1..]);
      assert ids == [ids[0]] + ids[1..];
    }
  }

  lemma NobodyWaiting(s: State)
    requires Refs(s) && forall k :: !InQueue(s, k)
    ensures s.queues == PerClass([], [])
  {
    if s.queues.first != [] {
      assert InQueue(s, s.queues.first[0]);
    }
    if s.queues.second != [] {
      assert InQueue(s, s.queues.second[0]);
    }
  }

  lemma WaitingList(s: State)
    requires Core(s)
    ensures AllWait(s, s.queues.first + s.queues.second)
    ensures forall k :: InQueue(s, k) ==> k in s.queues.first + s.queues.second
  {
    QueuesAscend(s);
  }

  /** When shutdown begins everybody queued is still there to be withdrawn. */
  lemma StopsSweepable(s: State)
    requires Inv(s)
    ensures var t := s.(accepting := false);
            Sweepable(t) && AllWait(t, t.queues.first + t.queues.second)
  {
    StopAccepting(s);
    WaitingList(s.(accepting := false));
  }

  lemma ShutdownKeepsInv(s: State)
    requires Inv(s)
    ensures Inv(Shutdown(s)) && !Shutdown(s).accepting && Shutdown(s).clock == s.clock
  {
    var ids, t := s.queues.first + s.queues.second, s.(accepting := false);
    WaitingList(s);
    assert Core(t) by { StopAccepting(s); }
    assert forall k :: InQueue(t, k) == InQueue(s, k);
    RemoveAllSweeps(t, ids);
    RemoveAllEmpties(t, ids);
    NobodyWaiting(RemoveAll(t, ids));
    StopEventKeepsCore(RemoveAll(t, ids));
  }

  lemma StopAccepting(s: State)
    requires Core(s)
    ensures Core(s.(accepting := false))
  {
    var t := s.(accepting := false);
    forall k | 0 <= k < |t.jobs|
      ensures JobOk(t.jobs[k], InQueue(t, k), t.current == Some(k), t.clock)
    {
      assert JobOk(s.jobs[k], InQueue(s, k), s.current == Some(k), s.clock);
    }
  }

  lemma StopEventKeepsCore(s: State)
    requires Core(s) && !s.accepting && s.queues == PerClass([], [])
    ensures Core(s.(trace := s.trace + [Stopped(s.clock)]))
  {
    var t := s.(trace := s.trace + [Stopped(s.clock)]);
    MirrorsNext(s, Stopped(s.clock), t);
    assert Mirrors(t);
    forall k | 0 <= k < |t.jobs|
      ensures JobOk(t.jobs[k], InQueue(t, k), t.current == Some(k), t.clock)
    {
      assert JobOk(s.jobs[k], InQueue(s, k), s.current == Some(k), s.clock);
    }
  }

  /** Every step, at any instant, keeps the invariant. */
  lemma StepKeepsInv(s: State, step: Step, at: real)
    requires Inv(s)
    ensures Inv(Apply(s, step, at))
    ensures s.clock <= at ==> Apply(s, step, at).clock == at
  {
    hide Inv, Submit, QueueTimer, CallerCancel, RunStarts, OperationBegins, OperationEnds, LifecycleWakes, Shutdown;
    if s.clock <= at {
      ClockForward(s, at);
      var t := s.(clock := at);
      match step
      case Submission(r) => SubmitKeepsInv(t, r);
      case QueueTimeout(id) => QueueTimerKeepsInv(t, id);
      case Cancellation(id) => CallerCancelKeepsInv(t, id);
      case LifecycleStarts => RunStartsKeepsInv(t);
      case OperationStarts => OperationBeginsKeepsInv(t);
      case OperationStops(own) => OperationEndsKeepsInv(t, own);
      case LifecycleRuns => LifecycleKeepsInv(t);
      case ShutdownCalled => ShutdownKeepsInv(t);
    }
  }
}
