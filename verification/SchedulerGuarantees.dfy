/** Guarantees over every run of the scheduler, in any interleaving of its steps. */
module SchedulerGuarantees {
  import opened Common
  import opened Failures
  import opened DispatchBoard
  import opened DispatchGuarantees
  import opened SchedulerModel
  import opened SchedulerInvariant

  datatype Timed = Timed(step: Step, at: real)

  lemma InitialInv(limits: PerClass<nat>)
    ensures Inv(Initial(limits))
  {
    assert Replay([], limits) == Some(EmptyBoard());
  }

  ghost function Next(s: State, t: Timed): (r: State)
    requires Inv(s)
    ensures Inv(r)
  {
    StepKeepsInv(s, t.step, t.at);
    Apply(s, t.step, t.at)
  }

  /** A run is any sequence of steps at any instants. */
  ghost function Run(s: State, steps: seq<Timed>): (r: State)
    requires Inv(s)
    ensures Inv(r)
    decreases |steps|
  {
    if steps == [] then s else Run(Next(s, steps[0]), steps[1..])
  }

  ghost function RunFrom(limits: PerClass<nat>, steps: seq<Timed>): (r: State)
    ensures Inv(r)
  {
    InitialInv(limits);
    Run(Initial(limits), steps)
  }

  // ---------------------------------------------------------------------------------------
  // What a step may do to a job's record.
  // ---------------------------------------------------------------------------------------

  /** The request never changes; a budget, an ended operation and an answer are final. */
  predicate Evolves(a: Job, b: Job) {
    && b.priority == a.priority && b.executionTimeout == a.executionTimeout && b.enqueuedAt == a.enqueuedAt
    && b.queueDeadline == a.queueDeadline && b.requestDeadline == a.requestDeadline
    && (!a.result.Pending? ==> b.result == a.result)
    && (!a.started.NotStarted? ==> b.started == a.started)
    && (a.budget.Some? ==> b.budget == a.budget)
    && (a.op.Over? ==> b.op == a.op)
    && (a.op.Alive? ==> b.op == a.op || b.op.Over?)
    && (a.state == Finished ==> b.state == Finished)
    && (a.state == Running ==> b.state != Queued)
  }

  ghost predicate AllEvolve(s: State, r: State) {
    && |s.jobs| <= |r.jobs|
    && (forall id :: 0 <= id < |s.jobs| ==> Evolves(s.jobs[id], r.jobs[id]))
    && s.limits == r.limits
  }

  lemma OneEvolves(s: State, r: State, id: nat)
    requires id < |s.jobs| == |r.jobs| && r.limits == s.limits
    requires Evolves(s.jobs[id], r.jobs[id])
    requires forall k :: 0 <= k < |s.jobs| && k != id ==> r.jobs[k] == s.jobs[k]
    ensures AllEvolve(s, r)
  {
  }

  lemma Evolution(s: State, t: State, r: State)
    requires AllEvolve(s, t) && AllEvolve(t, r)
    ensures AllEvolve(s, r)
  {
    forall id | 0 <= id < |s.jobs|
      ensures Evolves(s.jobs[id], r.jobs[id])
    {
      assert Evolves(s.jobs[id], t.jobs[id]);
      assert Evolves(t.jobs[id], r.jobs[id]);
    }
  }

  lemma {:induction false} DispatchEvolves(s: State)
    requires Core(s)
    ensures AllEvolve(s, Dispatch(s))
    decreases |s.queues.first| + |s.queues.second|
  {
    hide Core, Refs, Without;
    CoreRefs(s);
    if !s.workerActive && NextInLine(s).Some? {
      var id := NextInLine(s).value;
      NextInLineWaits(s);
      WaitingJob(s, id);
      if s.jobs[id].queueDeadline > s.clock {
        OneEvolves(s, Launch(s, id), id);
      } else {
        ReleasedQueues(s, id);
        ExpireKeepsCore(s, id);
        OneEvolves(s, ExpireQueued(s, id), id);
        DispatchEvolves(ExpireQueued(s, id));
        Evolution(s, ExpireQueued(s, id), Dispatch(ExpireQueued(s, id)));
      }
    }
  }

  lemma SubmitEvolves(s: State, r: Request)
    requires Inv(s)
    ensures AllEvolve(s, Submit(s, r).0)
  {
    if Refusal(s, r).None? {
      NewJobOk(s, r);
      AdmitKeepsCore(s, NewJob(s, r));
      var t := Admit(s, NewJob(s, r));
      assert AllEvolve(s, t);
      DispatchEvolves(t);
      Evolution(s, t, Dispatch(t));
    }
  }

  lemma LeavingEvolves(s: State, id: nat)
    requires Core(s) && InQueue(s, id)
    ensures AllEvolve(s, RemoveQueued(s, id)) && AllEvolve(s, ExpireQueued(s, id))
  {
    WaitingJob(s, id);
    OneEvolves(s, RemoveQueued(s, id), id);
    OneEvolves(s, ExpireQueued(s, id), id);
  }

  lemma SettledEvolves(s: State)
    requires Inv(s) && HasCurrent(s)
    requires s.jobs[s.current.value].budget.Some? && s.jobs[s.current.value].op.Over?
    ensures var t := Vacate(WithCurrent(s, SettledJob(s.jobs[s.current.value])));
            Core(t) && AllEvolve(s, t)
  {
    VacateKeepsCore(s);
    OneEvolves(s, Vacate(WithCurrent(s, SettledJob(s.jobs[s.current.value]))), s.current.value);
  }

  lemma LifecycleEvolves(s: State)
    requires Inv(s)
    ensures AllEvolve(s, LifecycleWakes(s))
  {
    hide Core, AllEvolve, Dispatch, Refs;
    CoreRefs(s);
    if HasCurrent(s) && s.jobs[s.current.value].budget.Some? {
      var old_ := s.jobs[s.current.value];
      if old_.op.Over? {
        var t := Vacate(WithCurrent(s, SettledJob(old_)));
        SettledEvolves(s);
        DispatchEvolves(t);
        CoreRefs(t);
        assert LifecycleWakes(s) == SetIdleIfDrained(Dispatch(t));
        IdleEvolves(Dispatch(t));
        Evolution(s, t, Dispatch(t));
        Evolution(s, Dispatch(t), SetIdleIfDrained(Dispatch(t)));
      } else if LifecycleWakes(s) != s {
        TimingOutEvolves(s);
      } else {
        NothingEvolves(s);
      }
    } else {
      NothingEvolves(s);
    }
  }

  lemma IdleEvolves(s: State)
    ensures AllEvolve(s, SetIdleIfDrained(s))
  {
  }

  lemma NothingEvolves(s: State)
    ensures AllEvolve(s, s)
  {
  }

  lemma TimingOutEvolves(s: State)
    requires Inv(s) && HasCurrent(s) && s.jobs[s.current.value].result.Pending?
    ensures AllEvolve(s, WithCurrent(s, s.jobs[s.current.value].(result := UpstreamTimeout)))
  {
    var job := s.jobs[s.current.value].(result := UpstreamTimeout);
    CurrentEvolves(s, job, WithCurrent(s, job));
  }

  lemma {:induction false} RemoveAllEvolves(s: State, ids: seq<nat>)
    requires Sweepable(s)
    ensures AllEvolve(s, RemoveAll(s, ids))
    decreases |ids|
  {
    if ids != [] && InQueue(s, ids[0]) {
      var t := RemoveQueued(s, ids[0]);
      assert Sweepable(t) by { RemoveSweeps(s, ids[0]); }
      assert AllEvolve(s, t) by { LeavingEvolves(s, ids[0]); }
      RemoveAllEvolves(t, ids[1..]);
      Evolution(s, t, RemoveAll(t, ids[1..]));
    }
  }

  lemma CurrentEvolves(s: State, job: Job, r: State)
    requires Core(s) && HasCurrent(s) && Evolves(s.jobs[s.current.value], job)
    requires r == WithCurrent(s, job).(trace := r.trace)
    ensures AllEvolve(s, r)
  {
    OneEvolves(s, r, s.current.value);
  }

  lemma RunningEvolves(s: State, own: Outcome)
    requires Inv(s)
    ensures AllEvolve(s, RunStarts(s)) && AllEvolve(s, OperationBegins(s)) && AllEvolve(s, OperationEnds(s, own))
  {
    if HasCurrent(s) {
      var old_ := s.jobs[s.current.value];
      if old_.budget.None? {
        CurrentEvolves(s, RunStarts(s).jobs[s.current.value], RunStarts(s));
      } else if old_.op.Unborn? {
        CurrentEvolves(s, old_.(op := Alive(s.clock)), OperationBegins(s));
      }
      if old_.op.Alive? {
        CurrentEvolves(s, old_.(op := Over(s.clock, own)), OperationEnds(s, own));
      }
    }
  }

  lemma ShutdownEvolves(s: State)
    requires Inv(s)
    ensures AllEvolve(s, Shutdown(s))
  {
    var t := s.(accepting := false);
    assert Sweepable(t) by { StopAccepting(s); }
    RemoveAllEvolves(t, s.queues.first + s.queues.second);
  }

  lemma LeaversEvolve(s: State, id: nat)
    requires Inv(s)
    ensures AllEvolve(s, QueueTimer(s, id)) && AllEvolve(s, CallerCancel(s, id))
  {
    if InQueue(s, id) {
      LeavingEvolves(s, id);
    }
  }

  lemma ClockEvolves(s: State, at: real, r: State)
    requires AllEvolve(s.(clock := at), r)
    ensures AllEvolve(s, r)
  {
  }

  lemma StepEvolves(s: State, step: Step, at: real)
    requires Inv(s)
    ensures AllEvolve(s, Apply(s, step, at))
  {
    hide Core, AllEvolve, Submit, QueueTimer, CallerCancel, RunStarts, OperationBegins, OperationEnds, LifecycleWakes, Shutdown, Refs;
    CoreRefs(s);
    NothingEvolves(s);
    if s.clock <= at {
      ClockForward(s, at);
      var t := s.(clock := at);
      match step {
        case Submission(r) => SubmitEvolves(t, r);
        case QueueTimeout(id) => LeaversEvolve(t, id);
        case Cancellation(id) => LeaversEvolve(t, id);
        case LifecycleStarts => RunningEvolves(t, OperationCancelled);
        case OperationStarts => RunningEvolves(t, OperationCancelled);
        case OperationStops(own) => RunningEvolves(t, own);
        case LifecycleRuns => LifecycleEvolves(t);
        case ShutdownCalled => ShutdownEvolves(t);
      }
      ClockEvolves(s, at, Apply(s, step, at));
    }
  }

  // ---------------------------------------------------------------------------------------
  // Theorems.
  // ---------------------------------------------------------------------------------------

  /** An answer is given at most once and never changes, whatever happens afterwards. */
  lemma {:induction false} AnswersAreFinal(s: State, steps: seq<Timed>)
    requires Inv(s)
    ensures AllEvolve(s, Run(s, steps))
    decreases |steps|
  {
    if steps != [] {
      var t := Next(s, steps[0]);
      assert AllEvolve(s, t) by { StepEvolves(s, steps[0].step, steps[0].at); }
      AnswersAreFinal(t, steps[1..]);
      Evolution(s, t, Run(t, steps[1..]));
    }
  }

  /** Slot and capacity accounting in every reachable state. */
  lemma SlotAccounting(limits: PerClass<nat>, steps: seq<Timed>)
    ensures var s := RunFrom(limits, steps);
            && s.allotted.first == CountOf(s, Protected) <= limits.first
            && s.allotted.second == CountOf(s, Background) <= limits.second
            && (s.workerActive <==> exists id :: 0 <= id < |s.jobs| && s.jobs[id].state == Running)
            && (forall i, j :: 0 <= i < |s.jobs| && 0 <= j < |s.jobs| && s.jobs[i].state == Running && s.jobs[j].state == Running ==> i == j)
            && (forall id :: 0 <= id < |s.jobs| ==> (s.jobs[id].state == Queued <==> InQueue(s, id)))
            && (!s.workerActive ==> s.queues == PerClass([], []))
            && (s.idle <==> s.allotted == PerClass(0, 0))
  {
    var s := RunFrom(limits, steps);
    InitialInv(limits);
    AnswersAreFinal(Initial(limits), steps);
    CapacityRespected(s);
    forall id | 0 <= id < |s.jobs|
      ensures s.jobs[id].state == Queued <==> InQueue(s, id)
      ensures s.jobs[id].state == Running <==> s.current == Some(id)
    {
      assert JobOk(s.jobs[id], InQueue(s, id), s.current == Some(id), s.clock);
    }
  }

  /** Which answer a job that ran receives. The deadline is the start plus the budget, cut at
      the request's own deadline. Ending strictly before it earns the operation's own outcome,
      ending strictly after it the timeout; an own outcome is never invented or borrowed. */
  ghost predicate AnswerFits(job: Job, clock: real) {
    && (job.state == Finished && job.started.StartGranted? ==>
          && job.op.Over? && job.budget.Some?
          && var deadline := EarlierOf(job.budget.value.startedAt + job.executionTimeout, job.requestDeadline);
          && (job.op.endedAt < deadline ==> job.result == Own(job.op.own))
          && (deadline < job.op.endedAt ==> job.result == UpstreamTimeout)
          && (job.result == Own(job.op.own) || job.result == UpstreamTimeout))
    && (job.result.UpstreamTimeout? ==> job.budget.Some? && job.budget.value.deadline <= clock)
    && (job.result.Withdrawn? ==> job.op.Unborn? && job.state == Finished)
    && (job.queueTimedOut ==> job.queueDeadline <= clock && job.result.Withdrawn?)
  }

  lemma AnswerMatchesDeadline(limits: PerClass<nat>, steps: seq<Timed>)
    ensures var s := RunFrom(limits, steps);
            forall id :: 0 <= id < |s.jobs| ==> AnswerFits(s.jobs[id], s.clock)
  {
    var s := RunFrom(limits, steps);
    forall id | 0 <= id < |s.jobs|
      ensures AnswerFits(s.jobs[id], s.clock)
    {
      assert JobOk(s.jobs[id], InQueue(s, id), s.current == Some(id), s.clock);
    }
  }

  /** Every run's history is legal, so every guarantee about legal histories is one about the
      scheduler; and a job's record and its ticket agree. */
  lemma RunsAreLegal(limits: PerClass<nat>, steps: seq<Timed>)
    ensures Legal(RunFrom(limits, steps).trace, limits)
    ensures var s := RunFrom(limits, steps);
            var b := Replay(s.trace, limits).value;
            && b.queues == s.queues && b.current == s.current
            && |b.tickets| == |s.jobs|
            && forall id :: 0 <= id < |s.jobs| ==> b.tickets[id] == Ticket(s.jobs[id].priority, s.jobs[id].queueDeadline)
  {
    InitialInv(limits);
    AnswersAreFinal(Initial(limits), steps);
  }

  /** Strict priority over whole runs: between a protected job's admission and its leaving the
      queue only older protected jobs start, fewer of them than the protected capacity. */
  lemma ProtectedIsNeverOvertaken(limits: PerClass<nat>, steps: seq<Timed>, a: nat, b: nat)
    ensures var tr := RunFrom(limits, steps).trace;
            && a < b <= |tr| && tr[a].Admitted? && tr[a].ticket.priority == Protected
            && (forall k :: a < k < b ==> !Exits(tr[k], tr[a].id))
            ==>
              && (forall k :: a < k < b && tr[k].Dispatched? ==> OfClass(tr[..k], tr[k].id, Protected))
              && DispatchCount(tr[a + 1..b]) <= limits.first - 1
  {
    hide RunFrom;
    RunsAreLegal(limits, steps);
    var tr := RunFrom(limits, steps).trace;
    if && a < b <= |tr| && tr[a].Admitted? && tr[a].ticket.priority == Protected
       && (forall k :: a < k < b ==> !Exits(tr[k], tr[a].id))
    {
      BoundedBypass(tr, a, b, limits);
    }
  }

  /** Exactly-once release over whole runs: a job's allocation has been given back once if the
      job is finished and never otherwise, and it was dispatched or withdrawn exactly once. */
  lemma ReleasedExactlyOnce(limits: PerClass<nat>, steps: seq<Timed>)
    ensures var s := RunFrom(limits, steps);
            forall id :: 0 <= id < |s.jobs| ==>
              && FreeCount(s.trace, id) == (if s.jobs[id].state == Finished then 1 else 0)
              && ExitCount(s.trace, id) == (if s.jobs[id].state == Queued then 0 else 1)
  {
    hide RunFrom, Inv, FreeCount, ExitCount;
    var s := RunFrom(limits, steps);
    LimitsStay(limits, steps);
    forall id | 0 <= id < |s.jobs|
      ensures FreeCount(s.trace, id) == (if s.jobs[id].state == Finished then 1 else 0)
      ensures ExitCount(s.trace, id) == (if s.jobs[id].state == Queued then 0 else 1)
    {
      OneRelease(limits, s, id);
    }
  }

  lemma LimitsStay(limits: PerClass<nat>, steps: seq<Timed>)
    ensures RunFrom(limits, steps).limits == limits
  {
    hide Inv, Run;
    InitialInv(limits);
    AnswersAreFinal(Initial(limits), steps);
  }

  lemma OneRelease(limits: PerClass<nat>, s: State, id: nat)
    requires Inv(s) && s.limits == limits && id < |s.jobs|
    ensures FreeCount(s.trace, id) == (if s.jobs[id].state == Finished then 1 else 0)
    ensures ExitCount(s.trace, id) == (if s.jobs[id].state == Queued then 0 else 1)
  {
    hide ExitCount, FreeCount;
    UniqueFate(s.trace, |s.trace|, id, limits);
    assert s.trace[..|s.trace|] == s.trace;
    assert JobOk(s.jobs[id], InQueue(s, id), s.current == Some(id), s.clock);
  }
}
