/** The scheduler object itself: fields changed in place, one method per critical section.
    Job records live in a table indexed by admission number. */
module ExecutionSchedulers {
  import opened Common
  import opened Failures
  import opened DispatchBoard
  import opened SchedulerModel
  import opened SchedulerInvariant
  import opened SchedulerGuarantees
  import opened SchedulerEffects

  class ExecutionScheduler {
    const limits: PerClass<nat>
    var allotted: PerClass<int>
    var queues: PerClass<seq<nat>>
    var jobs: seq<Job>
    var current: Option<nat>
    var workerActive: bool
    var accepting: bool
    var idle: bool
    ghost var clock: real
    ghost var trace: seq<Event>

    ghost function Model(): State
      reads this
    {
      State(limits, allotted, queues, jobs, current, workerActive, accepting, idle, clock, trace)
    }

    ghost predicate Valid()
      reads this
    {
      Reached(Model())
    }

    constructor (protectedCapacity: nat, backgroundCapacity: nat)
      ensures Valid()
      ensures Model() == Initial(PerClass(protectedCapacity, backgroundCapacity))
    {
      limits := PerClass(protectedCapacity, backgroundCapacity);
      allotted := PerClass(0, 0);
      queues := PerClass([], []);
      jobs := [];
      current := None;
      workerActive, accepting, idle := false, true, true;
      clock, trace := 0.0, [];
      new;
      InitialInv(limits);
    }

    method SetIdleIfDrainedLocked()
      modifies this
      ensures Model() == SetIdleIfDrained(old(Model()))
    {
      if allotted.first == 0 && allotted.second == 0 {
        idle := true;
      }
    }

    method ReleaseQueuedLocked(id: nat)
      requires InQueue(Model(), id)
      modifies this
      ensures Model() == ReleaseQueued(old(Model()), id)
    {
      var p := jobs[id].priority;
      queues := queues.With(p, Without(queues.At(p), id));
      jobs := jobs[id := jobs[id].(state := Finished)];
      allotted := allotted.With(p, allotted.At(p) - 1);
      SetIdleIfDrainedLocked();
    }

    method RemoveQueuedLocked(id: nat)
      requires InQueue(Model(), id)
      modifies this
      ensures Model() == RemoveQueued(old(Model()), id)
    {
      ReleaseQueuedLocked(id);
      jobs := jobs[id := jobs[id].(started := StartWithdrawn, result := Withdrawn)];
      trace := trace + [Removed(id, clock)];
    }

    method ExpireQueuedLocked(id: nat)
      requires InQueue(Model(), id)
      modifies this
      ensures Model() == ExpireQueued(old(Model()), id)
    {
      ReleaseQueuedLocked(id);
      var job := jobs[id].(queueTimedOut := true);
      if job.started.NotStarted? {
        job := job.(started := StartTimedOut);
      }
      if job.result.Pending? {
        job := job.(result := Withdrawn);
      }
      jobs := jobs[id := job];
      trace := trace + [Expired(id, clock)];
    }

    method LaunchLocked(id: nat)
      requires InQueue(Model(), id)
      modifies this
      ensures Model() == Launch(old(Model()), id)
    {
      var p := jobs[id].priority;
      queues := queues.With(p, queues.At(p)[1..]);
      jobs := jobs[id := jobs[id].(state := Running, started := StartGranted)];
      workerActive := true;
      current := Some(id);
      trace := trace + [Dispatched(id, clock)];
    }

    /** Expire overdue heads, then start the first job that still has time, protected first. */
    method DispatchLocked(now: real)
      requires Refs(Model()) && clock == now
      modifies this
      ensures Model() == Dispatch(old(Model()))
    {
      if workerActive {
        return;
      }
      var head := 0;
      while true
        invariant Refs(Model()) && clock == now && !workerActive
        invariant Dispatch(Model()) == Dispatch(old(Model()))
        decreases |queues.first| + |queues.second|
      {
        var queue := queues.first;
        if queue == [] {
          queue := queues.second;
        }
        if queue == [] {
          SetIdleIfDrainedLocked();
          return;
        }
        head := queue[0];
        NextInLineWaits(Model());
        if jobs[head].queueDeadline > now {
          break;
        }
        ReleaseKeepsRefs(Model(), head);
        ExpireQueuedLocked(head);
      }
      LaunchLocked(head);
    }

    /** The admission section of `execute`. */
    method AdmitLocked(request: Request, now: real) returns (reply: Reply)
      requires Refs(Model()) && clock == now
      modifies this
      ensures (Model(), reply) == Submit(old(Model()), request)
    {
      hide Dispatch, Refs;
      if !request.named || request.queueTimeout <= 0.0 || request.executionTimeout <= 0.0 {
        return Rejected(InvalidArgument);
      }
      var p := request.priority;
      var deadline := now + request.queueTimeout;
      if request.requestDeadline.Some? {
        deadline := Min(deadline, request.requestDeadline.value);
      }
      var job := Job(p, request.executionTimeout, now, deadline, request.requestDeadline,
                     Queued, NotStarted, Pending, false, false, None, Unborn);
      if !accepting {
        return Rejected(ShuttingDown);
      }
      if allotted.At(p) >= limits.At(p) {
        return Rejected(CapacityFull);
      }
      AdmitKeepsRefs(Model(), job);
      var id := |jobs|;
      allotted := allotted.With(p, allotted.At(p) + 1);
      queues := queues.With(p, queues.At(p) + [id]);
      jobs := jobs + [job];
      idle := false;
      trace := trace + [Admitted(id, Ticket(p, deadline), now)];
      DispatchLocked(now);
      return Accepted(id);
    }

    /** The tail of the lifecycle task once its operation is over. */
    method SettleAndFinishLocked(now: real)
      requires Refs(Model()) && clock == now && HasCurrent(Model())
      requires jobs[current.value].budget.Some? && jobs[current.value].op.Over?
      modifies this
      ensures Model() == Finish(WithCurrent(old(Model()), SettledJob(old(jobs[current.value]))))
    {
      hide Dispatch;
      var id := current.value;
      var job := jobs[id];
      if job.result.Pending? {
        if job.op.endedAt <= job.budget.value.deadline {
          jobs := jobs[id := job.(result := Own(job.op.own))];
        } else {
          jobs := jobs[id := job.(result := UpstreamTimeout)];
        }
      }
      assert jobs[id] == SettledJob(job);
      var p := job.priority;
      jobs := jobs[id := jobs[id].(state := Finished)];
      allotted := allotted.With(p, allotted.At(p) - 1);
      workerActive := false;
      current := None;
      trace := trace + [Released(id, now)];
      assert Model() == Vacate(WithCurrent(old(Model()), SettledJob(job)));
      DispatchLocked(now);
      SetIdleIfDrainedLocked();
    }

    /** The lifecycle task starts: the execution budget begins now and is never renewed. */
    method BeginLifecycle(now: real)
      requires Refs(Model()) && clock == now
      modifies this
      ensures Model() == RunStarts(old(Model()))
    {
      if current.Some? && current.value < |jobs| && jobs[current.value].budget.None? {
        var id := current.value;
        var deadline := now + jobs[id].executionTimeout;
        if jobs[id].requestDeadline.Some? {
          deadline := Min(deadline, jobs[id].requestDeadline.value);
        }
        jobs := jobs[id := jobs[id].(budget := Some(Budget(now, deadline)))];
      }
    }

    method BeginOperation(now: real)
      requires clock == now
      modifies this
      ensures Model() == OperationBegins(old(Model()))
    {
      if current.Some? && current.value < |jobs| && jobs[current.value].budget.Some? && jobs[current.value].op.Unborn? {
        var id := current.value;
        jobs := jobs[id := jobs[id].(op := Alive(now))];
        trace := trace + [OperationBegan(id, now)];
      }
    }

    method EndOperation(own: Outcome, now: real)
      requires clock == now
      modifies this
      ensures Model() == OperationEnds(old(Model()), own)
    {
      if current.Some? && current.value < |jobs| && jobs[current.value].op.Alive? {
        var id := current.value;
        jobs := jobs[id := jobs[id].(op := Over(now, own))];
        trace := trace + [OperationEnded(id, now)];
      }
    }

    method LifecycleSection(now: real)
      requires Refs(Model()) && clock == now
      modifies this
      ensures Model() == LifecycleWakes(old(Model()))
    {
      if current.Some? && current.value < |jobs| && jobs[current.value].budget.Some? {
        var job := jobs[current.value];
        if job.op.Over? {
          SettleAndFinishLocked(now);
        } else if job.budget.value.deadline <= now && job.result.Pending? {
          jobs := jobs[current.value := job.(result := UpstreamTimeout)];
        }
      }
    }

    /** Stop admission and withdraw everybody who waits, protected callers first. */
    method ShutdownLocked()
      requires Inv(Model())
      modifies this
      ensures Model() == SchedulerModel.Shutdown(old(Model()))
    {
      hide Inv, Core, InQueue, RemoveQueued;
      StopsSweepable(Model());
      accepting := false;
      ghost var t := Model();
      var queued := queues.first + queues.second;
      for i := 0 to |queued|
        invariant Sweepable(Model()) && AllWait(Model(), queued[i..])
        invariant RemoveAll(Model(), queued[i..]) == RemoveAll(t, queued)
      {
        assert queued[i..][0] == queued[i] && queued[i..][1..] == queued[i + 1..];
        AllWaitTail(Model(), queued[i..]);
        RemoveSweeps(Model(), queued[i]);
        RemoveQueuedLocked(queued[i]);
      }
      trace := trace + [Stopped(clock)];
    }

    /** The clock moves; nothing else does. */
    ghost method Await(now: real)
      requires Valid() && clock <= now
      modifies this`clock
      ensures Model() == old(Model()).(clock := now)
      ensures Valid()
    {
      hide Inv;
      ClockForward(Model(), now);
      clock := now;
    }

    // -------------------------------------------------------------------------------------
    // Entry points. Each runs one section at one instant.
    // -------------------------------------------------------------------------------------

    method Execute(request: Request, now: real) returns (reply: Reply)
      requires Valid() && clock <= now
      modifies this
      ensures Model() == Apply(old(Model()), Submission(request), now)
      ensures Valid()
      ensures reply == Submit(old(Model()).(clock := now), request).1
      // Admitted exactly if there is room and no stop, and every refusal for its own reason.
      ensures AnsweredRightly(reply, request, old(trace), old(jobs), limits)
      ensures reply.Rejected? ==> Model() == old(Model()).(clock := now)
      ensures reply.Accepted? ==> reply.id == |old(jobs)| && |jobs| == |old(jobs)| + 1 && IsRecordOf(jobs[reply.id], request, now)
    {
      hide Inv, StopsAgree, Submit, AnsweredRightly, IsRecordOf;
      StepKeepsReached(Model(), Submission(request), now);
      Await(now);
      SubmissionIsAnsweredRightly(Model(), request);
      SubmissionRecord(Model(), request);
      reply := AdmitLocked(request, now);
    }

    /** The caller's queue deadline fires; true when the caller must raise a queue timeout. */
    method QueueDeadlineFires(id: nat, now: real) returns (timedOut: bool)
      requires Valid() && clock <= now
      requires id < |jobs| && jobs[id].queueDeadline <= now
      modifies this
      ensures Model() == Apply(old(Model()), QueueTimeout(id), now)
      ensures Valid()
      ensures id < |jobs| && timedOut == jobs[id].queueTimedOut
    {
      StepKeepsReached(Model(), QueueTimeout(id), now);
      assert jobs[id].state == Queued <==> InQueue(Model(), id) by {
        assert JobOk(jobs[id], InQueue(Model(), id), current == Some(id), clock);
      }
      clock := now;
      if jobs[id].state == Queued {
        ExpireQueuedLocked(id);
      }
      timedOut := jobs[id].queueTimedOut;
    }

    method CallerCancelled(id: nat, now: real)
      requires Valid() && clock <= now && id < |jobs|
      modifies this
      ensures Model() == Apply(old(Model()), Cancellation(id), now)
      ensures Valid()
    {
      StepKeepsReached(Model(), Cancellation(id), now);
      assert jobs[id].state == Queued <==> InQueue(Model(), id) by {
        assert JobOk(jobs[id], InQueue(Model(), id), current == Some(id), clock);
      }
      clock := now;
      if jobs[id].state == Queued {
        RemoveQueuedLocked(id);
      } else if jobs[id].state == Running {
        jobs := jobs[id := jobs[id].(callerCancelled := true)];
      }
    }

    method LifecycleBegins(now: real)
      requires Valid() && clock <= now
      modifies this
      ensures Model() == Apply(old(Model()), LifecycleStarts, now)
      ensures Valid()
    {
      hide Core, RunStarts, Refs;
      StepKeepsReached(Model(), LifecycleStarts, now);
      Await(now);
      CoreRefs(Model());
      BeginLifecycle(now);
    }

    method OperationStarted(now: real)
      requires Valid() && clock <= now
      modifies this
      ensures Model() == Apply(old(Model()), OperationStarts, now)
      ensures Valid()
    {
      hide Inv, OperationBegins;
      StepKeepsReached(Model(), OperationStarts, now);
      Await(now);
      BeginOperation(now);
    }

    method OperationFinished(own: Outcome, now: real)
      requires Valid() && clock <= now
      modifies this
      ensures Model() == Apply(old(Model()), OperationStops(own), now)
      ensures Valid()
    {
      hide Inv, OperationEnds;
      StepKeepsReached(Model(), OperationStops(own), now);
      Await(now);
      EndOperation(own, now);
    }

    /** The lifecycle task wakes up, for whatever reason. */
    method LifecycleWakesUp(now: real)
      requires Valid() && clock <= now
      modifies this
      ensures Model() == Apply(old(Model()), LifecycleRuns, now)
      ensures Valid()
    {
      hide Core, LifecycleWakes, Refs;
      StepKeepsReached(Model(), LifecycleRuns, now);
      Await(now);
      CoreRefs(Model());
      LifecycleSection(now);
    }

    method Shutdown(now: real)
      requires Valid() && clock <= now
      modifies this
      ensures Model() == Apply(old(Model()), ShutdownCalled, now)
      ensures Valid()
    {
      hide Inv, SchedulerModel.Shutdown;
      StepKeepsReached(Model(), ShutdownCalled, now);
      Await(now);
      ShutdownLocked();
    }
  }
}
