/** What each step does to a reachable scheduler, said on its job records and its history. */
module SchedulerEffects {
  import opened Common
  import opened Failures
  import opened DispatchBoard
  import opened SchedulerModel
  import opened SchedulerInvariant
  import opened SchedulerGuarantees

  // ---------------------------------------------------------------------------------------
  // Admission is open until the history says otherwise.
  // ---------------------------------------------------------------------------------------

  predicate HasStopped(trace: seq<Event>) {
    exists k :: 0 <= k < |trace| && trace[k].Stopped?
  }

  /** `r` comes after `s`; admission closes exactly with the event that says so. */
  ghost predicate Recorded(s: State, r: State) {
    && s.trace <= r.trace
    && (r.accepting <==> s.accepting && forall k :: |s.trace| <= k < |r.trace| ==> !r.trace[k].Stopped?)
  }

  ghost predicate StopsAgree(s: State) {
    s.accepting <==> !HasStopped(s.trace)
  }

  ghost predicate Reached(s: State) {
    Inv(s) && StopsAgree(s)
  }

  lemma RecordedTrans(s: State, t: State, r: State)
    requires Recorded(s, t) && Recorded(t, r)
    ensures Recorded(s, r)
  {
    forall k | |s.trace| <= k < |t.trace|
      ensures t.trace[k] == r.trace[k]
    {
    }
  }

  lemma RecordedKeepsStops(s: State, r: State)
    requires StopsAgree(s) && Recorded(s, r)
    ensures StopsAgree(r)
  {
    if k :| 0 <= k < |r.trace| && r.trace[k].Stopped? {
      if k < |s.trace| {
        assert s.trace[k] == r.trace[k];
      }
    }
    if k :| 0 <= k < |s.trace| && s.trace[k].Stopped? {
      assert r.trace[k] == s.trace[k];
    }
  }

  lemma {:induction false} DispatchRecorded(s: State)
    requires Refs(s)
    ensures Recorded(s, Dispatch(s))
    decreases |s.queues.first| + |s.queues.second|
  {
    if !s.workerActive && NextInLine(s).Some? {
      var id := NextInLine(s).value;
      NextInLineWaits(s);
      if s.jobs[id].queueDeadline <= s.clock {
        ReleaseKeepsRefs(s, id);
        DispatchRecorded(ExpireQueued(s, id));
        RecordedTrans(s, ExpireQueued(s, id), Dispatch(ExpireQueued(s, id)));
      }
    }
  }

  lemma {:induction false} RemoveAllRecorded(s: State, ids: seq<nat>)
    ensures Recorded(s, RemoveAll(s, ids))
    ensures RemoveAll(s, ids).accepting == s.accepting
    decreases |ids|
  {
    if ids != [] && InQueue(s, ids[0]) {
      RemoveAllRecorded(RemoveQueued(s, ids[0]), ids[1..]);
      RecordedTrans(s, RemoveQueued(s, ids[0]), RemoveAll(s, ids));
    }
  }

  lemma SubmitRecorded(s: State, request: Request)
    requires Refs(s)
    ensures Recorded(s, Submit(s, request).0)
  {
    hide Dispatch, Refs;
    if Refusal(s, request).None? {
      AdmitKeepsRefs(s, NewJob(s, request));
      var t := Admit(s, NewJob(s, request));
      DispatchRecorded(t);
      RecordedTrans(s, t, Dispatch(t));
    }
  }

  lemma LeaversRecorded(s: State, id: nat)
    ensures Recorded(s, QueueTimer(s, id)) && Recorded(s, CallerCancel(s, id))
  {
    hide Without;
  }

  lemma RunningRecorded(s: State, own: Outcome)
    ensures Recorded(s, RunStarts(s)) && Recorded(s, OperationBegins(s)) && Recorded(s, OperationEnds(s, own))
  {
  }

  lemma WakingRecorded(s: State)
    requires Inv(s)
    ensures Refs(s) && Recorded(s, LifecycleWakes(s))
  {
    hide Dispatch, Mirrors, JobsOk, Refs;
    CoreRefs(s);
    if HasCurrent(s) && s.jobs[s.current.value].budget.Some? && s.jobs[s.current.value].op.Over? {
      var v := Vacate(WithCurrent(s, SettledJob(s.jobs[s.current.value])));
      VacateKeepsCore(s);
      CoreRefs(v);
      DispatchRecorded(v);
      RecordedTrans(s, v, Dispatch(v));
    }
  }

  lemma ShutdownRecorded(s: State)
    ensures Recorded(s, Shutdown(s))
  {
    hide RemoveAll;
    var t := s.(accepting := false);
    var cleared := RemoveAll(t, s.queues.first + s.queues.second);
    RemoveAllRecorded(t, s.queues.first + s.queues.second);
    assert Shutdown(s).trace[|cleared.trace|].Stopped?;
  }

  lemma StepRecorded(s: State, step: Step, at: real)
    requires Inv(s)
    ensures Refs(s) && Recorded(s, Apply(s, step, at))
  {
    hide Core, Refs, Submit, QueueTimer, CallerCancel, RunStarts, OperationBegins, OperationEnds, LifecycleWakes, Shutdown;
    CoreRefs(s);
    if s.clock <= at {
      ClockForward(s, at);
      var t := s.(clock := at);
      CoreRefs(t);
      match step {
        case Submission(r) => SubmitRecorded(t, r);
        case QueueTimeout(id) => LeaversRecorded(t, id);
        case Cancellation(id) => LeaversRecorded(t, id);
        case LifecycleStarts => RunningRecorded(t, OperationCancelled);
        case OperationStarts => RunningRecorded(t, OperationCancelled);
        case OperationStops(own) => RunningRecorded(t, own);
        case LifecycleRuns => WakingRecorded(t);
        case ShutdownCalled => ShutdownRecorded(t);
      }
    }
  }

  lemma StepKeepsReached(s: State, step: Step, at: real)
    requires Reached(s)
    ensures Refs(s) && Reached(Apply(s, step, at))
    ensures s.clock <= at ==> Apply(s, step, at).clock == at
  {
    hide Inv, Apply, StopsAgree, Recorded, Refs;
    StepRecorded(s, step, at);
    StepKeepsInv(s, step, at);
    RecordedKeepsStops(s, Apply(s, step, at));
  }

  lemma {:induction false} RunIsReached(s: State, steps: seq<Timed>)
    requires Reached(s)
    ensures Reached(Run(s, steps))
    decreases |steps|
  {
    hide Inv, Apply, StopsAgree;
    if steps != [] {
      StepKeepsReached(s, steps[0].step, steps[0].at);
      RunIsReached(Next(s, steps[0]), steps[1..]);
    }
  }

  lemma RunFromIsReached(limits: PerClass<nat>, steps: seq<Timed>)
    ensures Reached(RunFrom(limits, steps))
  {
    hide Inv, Run;
    InitialInv(limits);
    assert StopsAgree(Initial(limits));
    RunIsReached(Initial(limits), steps);
  }

  // ---------------------------------------------------------------------------------------
  // Room is counted in unfinished jobs.
  // ---------------------------------------------------------------------------------------

  /** The jobs of a class that have not finished. */
  function Unfinished(jobs: seq<Job>, p: Priority): set<nat> {
    set id: nat | id < |jobs| && jobs[id].state != Finished && jobs[id].priority == p
  }

  function Elements(q: seq<nat>): set<nat> {
    set x | x in q
  }

  lemma {:induction false} AscendingSize(q: seq<nat>)
    requires Ascending(q)
    ensures |Elements(q)| == |q|
  {
    hide Elements;
    if q == [] {
      NoElements();
    } else {
      var n := |q| - 1;
      AscendingSize(q[..n]);
      OneMoreElement(q[..n], q[n]);
      assert q == q[..n] + [q[n]];
    }
  }

  lemma NoElements()
    ensures Elements([]) == {}
  {
  }

  lemma OneMoreElement(q: seq<nat>, x: nat)
    requires forall i :: 0 <= i < |q| ==> q[i] < x
    ensures |Elements(q + [x])| == |Elements(q)| + 1
  {
    assert Elements(q + [x]) == Elements(q) + {x};
    assert x !in Elements(q);
  }

  lemma UnfinishedAreQueuedOrRunning(s: State, p: Priority)
    requires Inv(s)
    ensures Unfinished(s.jobs, p) == Elements(s.queues.At(p))
              + if HasCurrent(s) && s.jobs[s.current.value].priority == p then {s.current.value} else {}
  {
    hide Mirrors, Accounts;
    forall id: nat | id < |s.jobs|
      ensures (s.jobs[id].state == Queued <==> InQueue(s, id)) && (s.jobs[id].state == Running <==> s.current == Some(id))
    {
      assert JobOk(s.jobs[id], InQueue(s, id), s.current == Some(id), s.clock);
    }
    forall x | x in s.queues.At(p)
      ensures x < |s.jobs| && s.jobs[x].priority == p
    {
      var i :| 0 <= i < |s.queues.At(p)| && s.queues.At(p)[i] == x;
    }
  }

  /** The allocation of a class is the number of its unfinished jobs. */
  lemma AllottedIsUnfinished(s: State, p: Priority)
    requires Inv(s)
    ensures |Unfinished(s.jobs, p)| == s.allotted.At(p)
  {
    hide Mirrors, JobsOk, Refs, InQueue, Unfinished, Elements;
    UnfinishedAreQueuedOrRunning(s, p);
    QueuesAscend(s);
    AscendingSize(s.queues.At(p));
    var waiting := Elements(s.queues.At(p));
    if HasCurrent(s) && s.jobs[s.current.value].priority == p {
      CurrentDoesNotWait(s, p);
      ElementsAre(s.queues.At(p), s.current.value);
      assert |waiting + {s.current.value}| == |waiting| + 1;
    } else {
      assert waiting + {} == waiting;
    }
  }

  lemma ElementsAre(q: seq<nat>, x: nat)
    ensures x in Elements(q) <==> x in q
  {
  }

  lemma CurrentDoesNotWait(s: State, p: Priority)
    requires Inv(s) && HasCurrent(s) && s.jobs[s.current.value].priority == p
    ensures s.current.value !in s.queues.At(p)
  {
    hide Mirrors, JobsOk, Accounts, Refs;
    RunningJob(s);
  }

  // ---------------------------------------------------------------------------------------
  // Admission.
  // ---------------------------------------------------------------------------------------

  predicate WellFormedRequest(request: Request) {
    request.named && request.queueTimeout > 0.0 && request.executionTimeout > 0.0
  }

  /** Which answer a request gets, by the history and the job records. */
  predicate AnsweredRightly(reply: Reply, request: Request, trace: seq<Event>, jobs: seq<Job>, limits: PerClass<nat>) {
    var room := |Unfinished(jobs, request.priority)| < limits.At(request.priority);
    && (reply.Accepted? <==> WellFormedRequest(request) && !HasStopped(trace) && room)
    && (reply == Rejected(InvalidArgument) <==> !WellFormedRequest(request))
    && (reply == Rejected(ShuttingDown) <==> WellFormedRequest(request) && HasStopped(trace))
    && (reply == Rejected(CapacityFull) <==> WellFormedRequest(request) && !HasStopped(trace) && !room)
  }

  /** The record an admitted request leaves behind: the queue deadline is the queue timeout from
      now, cut at the request's own deadline. */
  predicate IsRecordOf(job: Job, request: Request, now: real) {
    && job.priority == request.priority
    && job.executionTimeout == request.executionTimeout
    && job.requestDeadline == request.requestDeadline
    && job.enqueuedAt == now
    && (request.requestDeadline.None? ==> job.queueDeadline == now + request.queueTimeout)
    && (request.requestDeadline.Some? ==>
          job.queueDeadline == if request.requestDeadline.value < now + request.queueTimeout
                               then request.requestDeadline.value else now + request.queueTimeout)
  }

  lemma SubmissionRecord(s: State, request: Request)
    requires Inv(s)
    ensures Refs(s)
    ensures var (r, reply) := Submit(s, request);
            && (reply.Rejected? ==> r == s)
            && (reply.Accepted? ==>
                  && reply.id == |s.jobs| && |r.jobs| == |s.jobs| + 1
                  && IsRecordOf(r.jobs[reply.id], request, s.clock)
                  && Admitted(reply.id, Ticket(request.priority, r.jobs[reply.id].queueDeadline), s.clock) in r.trace)
  {
    hide Core, Refs, Dispatch;
    CoreRefs(s);
    if Refusal(s, request).None? {
      var job := NewJob(s, request);
      var t := Admit(s, job);
      AdmitKeepsRefs(s, job);
      NewJobOk(s, request);
      AdmitKeepsCore(s, job);
      DispatchEvolves(t);
      DispatchRecorded(t);
      DispatchKeepsNumber(t);
      assert t.jobs[|s.jobs|] == job && Evolves(job, Dispatch(t).jobs[|s.jobs|]);
      assert t.trace[|s.trace|] == Admitted(|s.jobs|, Ticket(job.priority, job.queueDeadline), s.clock);
      assert Dispatch(t).trace[|s.trace|] == t.trace[|s.trace|];
    }
  }

  lemma {:induction false} DispatchKeepsNumber(s: State)
    requires Refs(s)
    ensures |Dispatch(s).jobs| == |s.jobs|
    decreases |s.queues.first| + |s.queues.second|
  {
    if !s.workerActive && NextInLine(s).Some? {
      var id := NextInLine(s).value;
      NextInLineWaits(s);
      if s.jobs[id].queueDeadline <= s.clock {
        ReleaseKeepsRefs(s, id);
        DispatchKeepsNumber(ExpireQueued(s, id));
      }
    }
  }

  /** A reachable scheduler admits exactly what there is room for, and says why it refuses. */
  lemma SubmissionIsAnsweredRightly(s: State, request: Request)
    requires Reached(s)
    ensures Refs(s) && AnsweredRightly(Submit(s, request).1, request, s.trace, s.jobs, s.limits)
  {
    hide Core, Refs, Dispatch, HasStopped, Unfinished;
    CoreRefs(s);
    AllottedIsUnfinished(s, request.priority);
  }

  /** In every reachable state a request with a name and positive timeouts is admitted if and
      only if the scheduler has not been stopped and fewer jobs of its class are unfinished than
      the class may have; every other request is refused for its own reason and changes nothing;
      an admitted one gets the next number and the record it asked for. */
  lemma AdmissionFollowsRoom(limits: PerClass<nat>, steps: seq<Timed>, request: Request, at: real)
    ensures var s := RunFrom(limits, steps);
            s.clock <= at ==>
              var now := s.(clock := at);
              && Refs(now) && s.limits == limits
              && var (r, reply) := Submit(now, request);
              && AnsweredRightly(reply, request, s.trace, s.jobs, limits)
              && (reply.Rejected? ==> r == now)
              && (reply.Accepted? ==>
                    reply.id == |s.jobs| && |r.jobs| == |s.jobs| + 1 && IsRecordOf(r.jobs[reply.id], request, at))
  {
    hide Inv, RunFrom, Submit, Refs, AnsweredRightly, IsRecordOf;
    var s := RunFrom(limits, steps);
    RunFromIsReached(limits, steps);
    LimitsStay(limits, steps);
    if s.clock <= at {
      ClockForward(s, at);
      var now := s.(clock := at);
      SubmissionIsAnsweredRightly(now, request);
      SubmissionRecord(now, request);
    }
  }

  // ---------------------------------------------------------------------------------------
  // Leaving, starting, ending.
  // ---------------------------------------------------------------------------------------

  /** Only job `id` has another record. */
  ghost predicate OnlyJob(s: State, r: State, id: nat) {
    |r.jobs| == |s.jobs| && forall k :: 0 <= k < |s.jobs| && k != id ==> r.jobs[k] == s.jobs[k]
  }

  /** A cancelled caller whose job waits takes it out of the queue, unanswered and unrun, and its
      allocation is free; one whose job runs only leaves a mark; otherwise nothing happens. */
  lemma CancellationEffect(s: State, id: nat)
    requires Inv(s)
    ensures Refs(s)
    ensures var r := Apply(s, Cancellation(id), s.clock);
            OnlyJob(s, r, id) && r.current == s.current && r.accepting == s.accepting
            && (id < |s.jobs| ==>
                  var before, after := s.jobs[id], r.jobs[id];
                  && (before.state == Queued ==>
                        && after == before.(state := Finished, started := StartWithdrawn, result := Withdrawn)
                        && id !in r.queues.first && id !in r.queues.second
                        && r.allotted.At(before.priority) == s.allotted.At(before.priority) - 1
                        && r.trace == s.trace + [Removed(id, s.clock)])
                  && (before.state == Running ==> r == s.(jobs := s.jobs[id := before.(callerCancelled := true)]))
                  && (before.state == Finished ==> r == s))
            && (id >= |s.jobs| ==> r == s)
  {
    hide Mirrors, Accounts, Without;
    CoreRefs(s);
    assert s.(clock := s.clock) == s;
    if id < |s.jobs| {
      assert JobOk(s.jobs[id], InQueue(s, id), s.current == Some(id), s.clock);
      if InQueue(s, id) {
        LeftBoth(s, id);
      }
    }
  }

  /** A queue deadline that has passed takes a waiting job out, marked as timed out. */
  lemma QueueTimeoutEffect(s: State, id: nat)
    requires Inv(s)
    ensures Refs(s)
    ensures var r := Apply(s, QueueTimeout(id), s.clock);
            OnlyJob(s, r, id) && r.current == s.current && r.accepting == s.accepting
            && (id < |s.jobs| && s.jobs[id].state == Queued && s.jobs[id].queueDeadline <= s.clock ==>
                  var before, after := s.jobs[id], r.jobs[id];
                  && after == before.(state := Finished, queueTimedOut := true, started := StartTimedOut, result := Withdrawn)
                  && id !in r.queues.first && id !in r.queues.second
                  && r.allotted.At(before.priority) == s.allotted.At(before.priority) - 1
                  && r.trace == s.trace + [Expired(id, s.clock)])
            && (!(id < |s.jobs| && s.jobs[id].state == Queued && s.jobs[id].queueDeadline <= s.clock) ==> r == s)
  {
    hide Mirrors, Accounts, Without;
    CoreRefs(s);
    assert s.(clock := s.clock) == s;
    if id < |s.jobs| {
      assert JobOk(s.jobs[id], InQueue(s, id), s.current == Some(id), s.clock);
      if InQueue(s, id) {
        LeftBoth(s, id);
      }
    }
  }

  lemma LeftBoth(s: State, id: nat)
    requires Inv(s) && InQueue(s, id)
    ensures var q := ReleaseQueued(s, id).queues;
            id !in q.first && id !in q.second
  {
    hide Mirrors, JobsOk, Accounts, Without;
    QueuesAscend(s);
    WithoutLeaves(s.queues.At(s.jobs[id].priority), id);
    NotInTheOther(s, id);
  }

  lemma NotInTheOther(s: State, id: nat)
    requires Inv(s) && id < |s.jobs|
    ensures s.jobs[id].priority == Protected ==> id !in s.queues.second
    ensures s.jobs[id].priority == Background ==> id !in s.queues.first
  {
    hide Mirrors, JobsOk, Accounts;
    CoreRefs(s);
  }

  /** The dispatched job's task starts its budget at this very instant, once. */
  lemma StartEffect(s: State)
    requires Inv(s)
    ensures Refs(s)
    ensures var r := Apply(s, LifecycleStarts, s.clock);
            if s.current.Some? && s.current.value < |s.jobs| && s.jobs[s.current.value].budget.None? then
              var id := s.current.value;
              var before, after := s.jobs[id], r.jobs[id];
              && OnlyJob(s, r, id)
              && after == before.(budget := after.budget) && after.budget.Some?
              && after.budget.value.startedAt == s.clock
              && after.budget.value.deadline == (if before.requestDeadline.Some? && before.requestDeadline.value < s.clock + before.executionTimeout
                                                 then before.requestDeadline.value else s.clock + before.executionTimeout)
              && r == s.(jobs := r.jobs)
            else r == s
  {
    hide Core;
    CoreRefs(s);
    assert s.(clock := s.clock) == s;
  }

  /** The operation begins, and ends with the outcome it had, at this very instant. */
  lemma OperationEffect(s: State, own: Outcome)
    requires Inv(s)
    ensures Refs(s)
    ensures var b, e := Apply(s, OperationStarts, s.clock), Apply(s, OperationStops(own), s.clock);
            if s.current.Some? && s.current.value < |s.jobs| then
              var id := s.current.value;
              var before := s.jobs[id];
              && OnlyJob(s, b, id) && OnlyJob(s, e, id)
              && (if before.budget.Some? && before.op.Unborn?
                  then b.jobs[id] == before.(op := Alive(s.clock)) && b.trace == s.trace + [OperationBegan(id, s.clock)]
                  else b == s)
              && (if before.op.Alive?
                  then e.jobs[id] == before.(op := Over(s.clock, own)) && e.trace == s.trace + [OperationEnded(id, s.clock)]
                  else e == s)
            else b == s && e == s
  {
    hide Core;
    CoreRefs(s);
    assert s.(clock := s.clock) == s;
  }

  /** A task that wakes with its operation still alive and the deadline passed answers with the
      timeout and keeps the slot; before the deadline, or once answered, it does nothing. */
  lemma DrainEffect(s: State)
    requires Inv(s) && s.current.Some? && s.current.value < |s.jobs|
    requires s.jobs[s.current.value].budget.Some? && !s.jobs[s.current.value].op.Over?
    ensures Refs(s)
    ensures var r := Apply(s, LifecycleRuns, s.clock);
            var id := s.current.value;
            var before := s.jobs[id];
            if before.budget.value.deadline <= s.clock && before.result.Pending?
            then r == s.(jobs := s.jobs[id := before.(result := UpstreamTimeout)])
            else r == s
  {
    hide Core, Dispatch;
    CoreRefs(s);
    assert s.(clock := s.clock) == s;
  }

  /** A task that wakes after its operation is over finishes its job: the answer is its own
      outcome if it ended by the deadline and nothing was answered before. */
  lemma FinishEffect(s: State)
    requires Inv(s) && s.current.Some? && s.current.value < |s.jobs|
    requires s.jobs[s.current.value].budget.Some? && s.jobs[s.current.value].op.Over?
    ensures Refs(s)
    ensures var r := Apply(s, LifecycleRuns, s.clock);
            var id := s.current.value;
            var before := s.jobs[id];
            && id < |r.jobs| && r.current != Some(id)
            && r.jobs[id].state == Finished
            && r.jobs[id].result ==
               (if !before.result.Pending? then before.result
                else if before.op.endedAt <= before.budget.value.deadline then Own(before.op.own) else UpstreamTimeout)
            && Released(id, s.clock) in r.trace
  {
    hide Mirrors, JobsOk, Accounts, Refs, Dispatch;
    CoreRefs(s);
    assert s.(clock := s.clock) == s;
    var id := s.current.value;
    var v := Vacate(WithCurrent(s, SettledJob(s.jobs[id])));
    VacateKeepsCore(s);
    CoreRefs(v);
    DispatchEvolves(v);
    DispatchRecorded(v);
    DispatchKeepsCore(v);
    assert v.jobs[id].state == Finished && Evolves(v.jobs[id], Dispatch(v).jobs[id]);
    assert v.trace[|s.trace|] == Released(id, s.clock);
    assert Dispatch(v).trace[|s.trace|] == Released(id, s.clock);
    FinishedDoesNotRun(Dispatch(v), id);
  }

  lemma FinishedDoesNotRun(s: State, id: nat)
    requires Core(s) && id < |s.jobs| && s.jobs[id].state == Finished
    ensures s.current != Some(id)
  {
    assert JobOk(s.jobs[id], InQueue(s, id), s.current == Some(id), s.clock);
  }

  /** Shutdown withdraws everybody who waits, closes admission and touches nobody else. */
  lemma ShutdownEffect(s: State)
    requires Inv(s)
    ensures Refs(s)
    ensures var r := Apply(s, ShutdownCalled, s.clock);
            && !r.accepting && r.queues == PerClass([], []) && r.current == s.current
            && |r.jobs| == |s.jobs|
            && (forall id :: 0 <= id < |s.jobs| ==>
                  r.jobs[id] == if s.jobs[id].state == Queued
                                then s.jobs[id].(state := Finished, started := StartWithdrawn, result := Withdrawn)
                                else s.jobs[id])
  {
    hide RemoveAll, Sweepable, Core;
    CoreRefs(s);
    assert s.(clock := s.clock) == s;
    ShutdownKeepsInv(s);
    StopsSweepable(s);
    var t := s.(accepting := false);
    RemoveAllEffect(t, s.queues.first + s.queues.second);
    forall id | 0 <= id < |s.jobs|
      ensures s.jobs[id].state == Queued <==> id in s.queues.first + s.queues.second
    {
      QueuedIsListed(s, id);
    }
  }

  lemma QueuedIsListed(s: State, id: nat)
    requires Inv(s) && id < |s.jobs|
    ensures s.jobs[id].state == Queued <==> id in s.queues.first + s.queues.second
  {
    hide Mirrors, Accounts;
    assert JobOk(s.jobs[id], InQueue(s, id), s.current == Some(id), s.clock);
    NotInTheOther(s, id);
  }

  lemma {:induction false} RemoveAllEffect(s: State, ids: seq<nat>)
    requires Sweepable(s) && AllWait(s, ids)
    ensures var r := RemoveAll(s, ids);
            && |r.jobs| == |s.jobs| && r.current == s.current
            && forall id :: 0 <= id < |s.jobs| ==>
                 r.jobs[id] == if id in ids then s.jobs[id].(state := Finished, started := StartWithdrawn, result := Withdrawn)
                               else s.jobs[id]
    decreases |ids|
  {
    hide Sweepable, Without;
    if ids != [] {
      AllWaitTail(s, ids);
      RemoveSweeps(s, ids[0]);
      RemoveAllEffect(RemoveQueued(s, ids[0]), ids[1..]);
      assert ids == [ids[0]] + ids[1..];
    }
  }
}
