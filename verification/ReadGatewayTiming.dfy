/** When timers fire on time, every read is answered within its queue budget plus one upstream
    budget of its arrival, retry included. */
module ReadGatewayTiming {
  import opened Common
  import opened Failures
  import opened DispatchBoard
  import opened SchedulerModel
  import opened SchedulerInvariant
  import opened SchedulerGuarantees
  import opened ReadGateway
  import opened ReadGatewayGuarantees

  // ---------------------------------------------------------------------------------------
  // Punctuality: time does not pass an armed timer, nor any work that is due now.
  // ---------------------------------------------------------------------------------------

  /** Work the event loop performs before time moves on: the first step of a dispatched job's
      task, and a caller whose answer is there. */
  ghost predicate DueNow(g: Gateway) {
    || (HasCurrent(g.sched) && g.sched.jobs[g.sched.current.value].budget.None?)
    || (exists i :: 0 <= i < |g.clients| && g.clients[i].progress.Waiting?
                    && g.clients[i].progress.id < |g.sched.jobs| && Ready(g.sched.jobs[g.clients[i].progress.id]))
  }

  ghost predicate BeforeTimers(g: Gateway, at: real) {
    && (forall id :: 0 <= id < |g.sched.jobs| && g.sched.jobs[id].state == Queued ==> at <= g.sched.jobs[id].queueDeadline)
    && (HasCurrent(g.sched) ==>
          var job := g.sched.jobs[g.sched.current.value];
          job.budget.Some? && job.result.Pending? ==> at <= job.budget.value.deadline)
    && (forall i :: 0 <= i < |g.clients| && g.clients[i].progress.Sleeping? ==> at <= g.clients[i].progress.wakeAt)
  }

  ghost predicate OnTime(g: Gateway, m: TimedMove) {
    m.at == g.sched.clock || (g.sched.clock < m.at && !DueNow(g) && BeforeTimers(g, m.at))
  }

  ghost predicate PunctualRun(g: Gateway, moves: seq<TimedMove>)
    requires GatewayInv(g)
    decreases |moves|
  {
    moves == [] || (OnTime(g, moves[0]) && PunctualRun(Moved(g, moves[0]), moves[1..]))
  }

  // ---------------------------------------------------------------------------------------
  // Punctual jobs.
  // ---------------------------------------------------------------------------------------

  predicate PunctualJob(job: Job, clock: real) {
    && job.executionTimeout > 0.0
    && (job.state == Queued ==> clock <= job.queueDeadline && job.budget.None?)
    && (job.state == Running && job.budget.None? ==> clock <= job.queueDeadline)
    && (job.budget.Some? ==> job.budget.value.startedAt <= job.queueDeadline)
    && (job.state == Running && job.budget.Some? && job.result.Pending? ==> clock <= job.budget.value.deadline)
  }

  ghost predicate PunctualJobs(s: State) {
    forall id :: 0 <= id < |s.jobs| ==> PunctualJob(s.jobs[id], s.clock)
  }

  ghost predicate BudgetsKept(s: State, r: State) {
    |s.jobs| == |r.jobs| && forall id :: 0 <= id < |s.jobs| ==> r.jobs[id].budget == s.jobs[id].budget
  }

  lemma {:induction false} DispatchKeepsBudgets(s: State)
    requires Refs(s)
    ensures BudgetsKept(s, Dispatch(s))
    decreases |s.queues.first| + |s.queues.second|
  {
    if !s.workerActive && NextInLine(s).Some? {
      var id := NextInLine(s).value;
      NextInLineWaits(s);
      if s.jobs[id].queueDeadline <= s.clock {
        ReleaseKeepsRefs(s, id);
        DispatchKeepsBudgets(ExpireQueued(s, id));
      }
    }
  }

  lemma {:induction false} RemoveAllKeepsBudgets(s: State, ids: seq<nat>)
    ensures BudgetsKept(s, RemoveAll(s, ids))
    decreases |ids|
  {
    if ids != [] && InQueue(s, ids[0]) {
      RemoveAllKeepsBudgets(RemoveQueued(s, ids[0]), ids[1..]);
    }
  }

  /** A step that sets no budget leaves punctual jobs punctual. */
  lemma PunctualStep(s: State, r: State)
    requires AllEvolve(s, r) && BudgetsKept(s, r) && r.clock == s.clock && PunctualJobs(s)
    ensures PunctualJobs(r)
  {
    forall id | 0 <= id < |r.jobs|
      ensures PunctualJob(r.jobs[id], r.clock)
    {
      assert Evolves(s.jobs[id], r.jobs[id]) && PunctualJob(s.jobs[id], s.clock);
    }
  }

  lemma PunctualStart(s: State)
    requires Inv(s) && PunctualJobs(s)
    ensures PunctualJobs(RunStarts(s))
  {
    if HasCurrent(s) && s.jobs[s.current.value].budget.None? {
      var job := s.jobs[s.current.value];
      RunningJob(s);
      assert PunctualJob(job, s.clock);
      assert BudgetOk(job, s.clock);
    }
  }

  lemma PunctualSubmit(s: State, request: Request)
    requires Inv(s) && PunctualJobs(s)
    requires request.requestDeadline.Some? ==> s.clock <= request.requestDeadline.value
    ensures PunctualJobs(Submit(s, request).0)
  {
    if Refusal(s, request).None? {
      var job := NewJob(s, request);
      var t := Admit(s, job);
      assert Core(t) by {
        NewJobOk(s, request);
        AdmitKeepsCore(s, job);
      }
      assert PunctualJobs(t) by { hide Inv, Core; assert PunctualJob(job, s.clock); }
      hide Inv;
      DispatchKeepsBudgets(t);
      DispatchEvolves(t);
      assert Dispatch(t).clock == t.clock by { DispatchKeepsCore(t); }
      hide Core, AllEvolve, BudgetsKept, PunctualJobs;
      PunctualStep(t, Dispatch(t));
    }
  }

  lemma PunctualVacate(s: State)
    requires Inv(s) && HasCurrent(s)
    requires s.jobs[s.current.value].budget.Some? && s.jobs[s.current.value].op.Over?
    ensures BudgetsKept(s, LifecycleWakes(s))
  {
    VacateKeepsCore(s);
    DispatchKeepsBudgets(Vacate(WithCurrent(s, SettledJob(s.jobs[s.current.value]))));
  }

  lemma WakingKeepsBudgets(s: State)
    requires Inv(s)
    ensures Refs(s) && BudgetsKept(s, LifecycleWakes(s))
  {
    if HasCurrent(s) && s.jobs[s.current.value].budget.Some? && s.jobs[s.current.value].op.Over? {
      PunctualVacate(s);
    }
  }

  lemma LeavingKeepsBudgets(s: State, id: nat)
    requires InQueue(s, id)
    ensures BudgetsKept(s, ExpireQueued(s, id)) && BudgetsKept(s, RemoveQueued(s, id))
  {
    hide Without;
  }

  lemma CallersKeepBudgets(s: State, id: nat)
    ensures BudgetsKept(s, QueueTimer(s, id)) && BudgetsKept(s, CallerCancel(s, id))
  {
    hide ExpireQueued, RemoveQueued;
    if InQueue(s, id) {
      LeavingKeepsBudgets(s, id);
    }
  }

  lemma OperationsKeepBudgets(s: State, own: Outcome)
    ensures BudgetsKept(s, OperationBegins(s)) && BudgetsKept(s, OperationEnds(s, own))
  {
  }

  lemma StoppingKeepsBudgets(s: State)
    ensures BudgetsKept(s, Shutdown(s))
  {
    hide RemoveAll;
    RemoveAllKeepsBudgets(s.(accepting := false), s.queues.first + s.queues.second);
  }

  /** Scheduler steps other than the start of a task set no budget. */
  lemma BudgetsOnlySetAtStart(s: State, step: Step)
    requires Inv(s) && !step.Submission? && !step.LifecycleStarts?
    ensures BudgetsKept(s, Apply(s, step, s.clock))
  {
    hide Inv, BudgetsKept, LifecycleWakes, Shutdown, QueueTimer, CallerCancel, OperationBegins, OperationEnds, Submit, RunStarts;
    assert s.(clock := s.clock) == s;
    match step
    case QueueTimeout(id) => CallersKeepBudgets(s, id);
    case Cancellation(id) => CallersKeepBudgets(s, id);
    case OperationStarts => OperationsKeepBudgets(s, OperationCancelled);
    case OperationStops(own) => OperationsKeepBudgets(s, own);
    case LifecycleRuns => WakingKeepsBudgets(s);
    case ShutdownCalled => StoppingKeepsBudgets(s);
  }

  lemma PunctualApply(s: State, step: Step)
    requires Inv(s) && PunctualJobs(s) && !step.Submission?
    ensures PunctualJobs(Apply(s, step, s.clock))
  {
    if step.LifecycleStarts? {
      PunctualStart(s);
    } else {
      hide Inv, Apply, AllEvolve, BudgetsKept, PunctualJobs;
      StepKeepsInv(s, step, s.clock);
      StepEvolves(s, step, s.clock);
      BudgetsOnlySetAtStart(s, step);
      PunctualStep(s, Apply(s, step, s.clock));
    }
  }

  // ---------------------------------------------------------------------------------------
  // Reads in time.
  // ---------------------------------------------------------------------------------------

  function LatestAnswer(g: Gateway, read: Read): real {
    read.arrivedAt + g.config.queueTimeout.At(read.priority) + g.config.upstreamTimeout
  }

  predicate ReadInTime(g: Gateway, read: Read) {
    if read.progress.Answered? then read.progress.at <= LatestAnswer(g, read)
    else
      && g.sched.clock <= LatestAnswer(g, read)
      && (read.progress.Sleeping? ==> g.sched.clock <= read.progress.wakeAt)
  }

  ghost predicate InTime(g: Gateway) {
    PunctualJobs(g.sched) && forall i :: 0 <= i < |g.clients| ==> ReadInTime(g, g.clients[i])
  }

  /** How long a waiting read's job lets it wait. */
  lemma JobBoundsRead(g: Gateway, i: nat, at: real)
    requires GatewayInv(g) && InTime(g) && i < |g.clients| && g.clients[i].progress.Waiting?
    requires !DueNow(g) && BeforeTimers(g, at)
    ensures at <= LatestAnswer(g, g.clients[i])
  {
    hide Inv, CooldownOk;
    var read := g.clients[i];
    var id := read.progress.id;
    assert ReadOk(g.config, g.sched.jobs, g.sched.clock, read);
    var job := g.sched.jobs[id];
    JobStands(g.sched, id);
    assert PunctualJob(job, g.sched.clock);
    assert !Ready(job);
  }

  lemma JobStands(s: State, id: nat)
    requires Inv(s) && id < |s.jobs|
    ensures BudgetOk(s.jobs[id], s.clock)
    ensures s.jobs[id].state == Finished ==> Ready(s.jobs[id])
    ensures s.jobs[id].state == Running ==> HasCurrent(s) && s.current.value == id
  {
    assert JobOk(s.jobs[id], InQueue(s, id), s.current == Some(id), s.clock);
  }

  lemma ClockInTime(g: Gateway, m: TimedMove)
    requires GatewayInv(g) && InTime(g) && OnTime(g, m)
    ensures InTime(At(g, m.at))
  {
    if m.at > g.sched.clock {
      PunctualClock(g, m.at);
      hide Inv, CooldownOk, PunctualJobs, BeforeTimers, DueNow;
      forall i | 0 <= i < |g.clients|
        ensures ReadInTime(At(g, m.at), g.clients[i])
      {
        assert ReadInTime(g, g.clients[i]);
        if g.clients[i].progress.Waiting? {
          JobBoundsRead(g, i, m.at);
        } else if g.clients[i].progress.Sleeping? {
          SleepBoundsRead(g, i, m.at);
        }
      }
    }
  }

  lemma SleepBoundsRead(g: Gateway, i: nat, at: real)
    requires GatewayInv(g) && i < |g.clients| && g.clients[i].progress.Sleeping? && BeforeTimers(g, at)
    ensures at <= LatestAnswer(g, g.clients[i])
  {
    assert ReadOk(g.config, g.sched.jobs, g.sched.clock, g.clients[i]);
    hide Inv, CooldownOk;
  }

  lemma PunctualClock(g: Gateway, at: real)
    requires GatewayInv(g) && PunctualJobs(g.sched) && !DueNow(g) && BeforeTimers(g, at)
    ensures PunctualJobs(g.sched.(clock := at))
  {
    forall id | 0 <= id < |g.sched.jobs|
      ensures PunctualJob(g.sched.jobs[id], at)
    {
      JobStands(g.sched, id);
      assert PunctualJob(g.sched.jobs[id], g.sched.clock);
    }
  }

  /** At one instant a read is answered now, goes to sleep until later, or waits on. */
  predicate ClientStep(now: real, a: Read, b: Read) {
    && b.arrivedAt == a.arrivedAt && b.priority == a.priority
    && (a.progress.Answered? ==> b.progress == a.progress)
    && (b.progress != a.progress ==>
          match b.progress
          case Answered(_, at) => at == now
          case Sleeping(wakeAt) => now <= wakeAt
          case Waiting(_) => true)
  }

  ghost predicate ClientsStep(g: Gateway, r: Gateway) {
    && |g.clients| <= |r.clients|
    && (forall i :: 0 <= i < |g.clients| ==> ClientStep(g.sched.clock, g.clients[i], r.clients[i]))
    && (forall i :: |g.clients| <= i < |r.clients| ==>
          r.clients[i].arrivedAt == g.sched.clock
          && !r.clients[i].progress.Sleeping?
          && (r.clients[i].progress.Answered? ==> r.clients[i].progress.at == g.sched.clock))
  }

  lemma ClientsInTime(g: Gateway, r: Gateway)
    requires InTime(g) && ClientsStep(g, r) && PunctualJobs(r.sched) && ConfigOk(g.config)
    requires r.config == g.config && r.sched.clock == g.sched.clock
    ensures InTime(r)
  {
    hide PunctualJobs;
    forall i | 0 <= i < |r.clients|
      ensures ReadInTime(r, r.clients[i])
    {
      if i < |g.clients| {
        assert ReadInTime(g, g.clients[i]);
      }
    }
  }

  lemma AttemptClient(g: Gateway, read: Read)
    requires Refs(g.sched)
    ensures var (h, r) := Attempt(g, read);
            && h.clients == g.clients
            && r.arrivedAt == read.arrivedAt && r.priority == read.priority
            && !r.progress.Sleeping? && (r.progress.Answered? ==> r.progress.at == g.sched.clock)
  {
    hide Submit, Refs;
  }

  lemma ResumeClient(g: Gateway, i: nat)
    requires i < |g.clients|
    ensures var r := CallerResumes(g, i).clients;
            |r| == |g.clients| && ClientStep(g.sched.clock, g.clients[i], r[i])
            && forall k :: 0 <= k < |r| && k != i ==> r[k] == g.clients[k]
  {
  }

  lemma NobodyResumes(g: Gateway, i: nat)
    requires i >= |g.clients|
    ensures CallerResumes(g, i) == g
  {
  }

  lemma ActClients(g: Gateway, move: Move)
    requires Refs(g.sched)
    ensures ClientsStep(g, Act(g, move))
  {
    hide Refs, Attempt, CallerResumes, Submit, QueueTimer, RunStarts, LifecycleWakes, Shutdown, CallerCancel, OperationBegins, OperationEnds;
    match move
    case Arrives(priority, retryable) =>
      AttemptClient(g, Read(priority, retryable, g.sched.clock, g.sched.clock + g.config.upstreamTimeout, [], Sleeping(g.sched.clock), false));
    case Retries(i) => if i < |g.clients| { AttemptClient(g, g.clients[i]); }
    case Resumes(i) => if i < |g.clients| { ResumeClient(g, i); } else { NobodyResumes(g, i); }
    case _ =>
  }

  lemma ActFrame(g: Gateway, move: Move)
    requires GatewayInv(g)
    ensures Act(g, move).config == g.config && Act(g, move).sched.clock == g.sched.clock
    ensures GatewayInv(Act(g, move))
  {
    InvRefs(g.sched);
    hide Act, GatewayInv;
    ActKeeps(g, move);
  }

  lemma AttemptPunctual(g: Gateway, read: Read)
    requires GatewayInv(g) && PunctualJobs(g.sched)
    requires read.attempts != [] ==> g.sched.clock <= read.deadline
    ensures PunctualJobs(Attempt(g, read).0.sched)
  {
    PunctualSubmit(g.sched, AttemptRequest(g, read));
  }

  lemma BuildPunctual(s: State, own: Outcome)
    requires Inv(s) && PunctualJobs(s)
    ensures PunctualJobs(OperationBegins(s))
    ensures PunctualJobs(OperationEnds(OperationBegins(s), own))
    ensures PunctualJobs(OperationEnds(s, own))
  {
  }

  lemma LeavePunctual(s: State, id: nat)
    requires Inv(s) && PunctualJobs(s)
    ensures PunctualJobs(CallerCancel(s, id))
  {
    PunctualApply(s, Cancellation(id));
    assert s.(clock := s.clock) == s;
    assert Apply(s, Cancellation(id), s.clock) == CallerCancel(s, id);
  }

  lemma SleeperHasTime(g: Gateway, i: nat)
    requires GatewayInv(g) && InTime(g) && i < |g.clients| && g.clients[i].progress.Sleeping?
    ensures g.sched.clock <= g.clients[i].progress.wakeAt <= g.clients[i].deadline
  {
    hide Inv, CooldownOk, PunctualJobs;
    assert ReadInTime(g, g.clients[i]);
    assert ReadOk(g.config, g.sched.jobs, g.sched.clock, g.clients[i]);
  }

  lemma ActPunctual(g: Gateway, move: Move)
    requires GatewayInv(g) && InTime(g)
    ensures PunctualJobs(Act(g, move).sched)
  {
    hide Inv, PunctualJobs, CooldownOk, ReadsOk, ReadInTime, Submit, Apply, CallerCancel, OperationBegins, OperationEnds, QueueTimer, RunStarts, LifecycleWakes, Shutdown, Attempt;
    InvRefs(g.sched);
    match move
    case Arrives(priority, retryable) =>
      var read := Read(priority, retryable, g.sched.clock, g.sched.clock + g.config.upstreamTimeout, [], Sleeping(g.sched.clock), false);
      AttemptPunctual(g, read);
    case Retries(i) =>
      if i < |g.clients| && g.clients[i].progress.Sleeping? {
        SleeperHasTime(g, i);
        AttemptPunctual(g, g.clients[i]);
      }
    case BuildStarts =>
      var meta: Metadata := if Cooldown(g) > 0.0 then Metadata(RateLimited, Some(Min(MAX_HINT, Cooldown(g)))) else NO_METADATA;
      BuildPunctual(g.sched, Raised(Unavailable(meta)));
    case BuildStops(own) => BuildPunctual(g.sched, own);
    case Leaves(i) => if i < |g.clients| && g.clients[i].progress.Waiting? { LeavePunctual(g.sched, g.clients[i].progress.id); }
    case QueueDeadlinePasses(id) => QuietPunctual(g, move, QueueTimeout(id));
    case TaskStarts => QuietPunctual(g, move, LifecycleStarts);
    case TaskWakes => QuietPunctual(g, move, LifecycleRuns);
    case Stops => QuietPunctual(g, move, ShutdownCalled);
    case Resumes(i) =>
    case JoinedReadFails(priority, meta) =>
  }

  lemma QuietPunctual(g: Gateway, move: Move, step: Step)
    requires GatewayInv(g) && PunctualJobs(g.sched)
    requires match move
             case QueueDeadlinePasses(id) => step == QueueTimeout(id)
             case TaskStarts => step == LifecycleStarts
             case TaskWakes => step == LifecycleRuns
             case Stops => step == ShutdownCalled
             case _ => false
    ensures PunctualJobs(Act(g, move).sched)
  {
    hide Inv, Act, PunctualJobs, Apply;
    QuietMove(g, move, step);
    PunctualApply(g.sched, step);
  }

  lemma ActInTime(g: Gateway, move: Move)
    requires GatewayInv(g) && InTime(g)
    ensures InTime(Act(g, move))
  {
    InvRefs(g.sched);
    assert ConfigOk(g.config);
    hide GatewayInv, Inv, Act, InTime;
    ActFrame(g, move);
    ActPunctual(g, move);
    ActClients(g, move);
    ClientsInTime(g, Act(g, move));
  }

  lemma MoveInTime(g: Gateway, m: TimedMove)
    requires GatewayInv(g) && InTime(g) && OnTime(g, m)
    ensures InTime(Moved(g, m))
  {
    InvRefs(g.sched);
    hide GatewayInv, Act, InTime, DueNow, BeforeTimers;
    TimePasses(g, m.at);
    ClockInTime(g, m);
    ActInTime(At(g, m.at), m.move);
  }

  lemma {:induction false} RunInTime(g: Gateway, moves: seq<TimedMove>)
    requires GatewayInv(g) && InTime(g) && PunctualRun(g, moves)
    ensures InTime(RunReads(g, moves))
    decreases |moves|
  {
    hide GatewayInv, InTime, OnTime, Moved;
    if moves != [] {
      MoveInTime(g, moves[0]);
      RunInTime(Moved(g, moves[0]), moves[1..]);
    }
  }

  /** With punctual timers a read is answered within its queue budget plus one upstream budget
      of its arrival, and while it is unanswered that instant has not passed. The retry runs
      inside the same bound. */
  lemma AnsweredWithinBudget(config: Config, limits: PerClass<nat>, moves: seq<TimedMove>, i: nat)
    requires ConfigOk(config)
    ensures var g := RunReads(Opened(config, limits), moves);
            PunctualRun(Opened(config, limits), moves) && i < |g.clients| ==>
              var read := g.clients[i];
              var bound := read.arrivedAt + config.queueTimeout.At(read.priority) + config.upstreamTimeout;
              if read.progress.Answered? then read.progress.at <= bound else g.sched.clock <= bound
  {
    assert InTime(Opened(config, limits));
    hide GatewayInv, InTime, RunReads, PunctualRun, Opened;
    if PunctualRun(Opened(config, limits), moves) && i < |RunReads(Opened(config, limits), moves).clients| {
      RunInTime(Opened(config, limits), moves);
      InTimeRead(RunReads(Opened(config, limits), moves), i);
    }
  }

  lemma InTimeRead(g: Gateway, i: nat)
    requires InTime(g) && i < |g.clients|
    ensures ReadInTime(g, g.clients[i])
  {
    hide PunctualJobs;
  }
}
