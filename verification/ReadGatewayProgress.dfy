/** Punctuality never gets stuck: at every instant finitely many moves, all of them at that
    instant, settle everything that is due, after which time may move on. */
module ReadGatewayProgress {
  import opened Common
  import opened Failures
  import opened DispatchBoard
  import opened SchedulerModel
  import opened SchedulerInvariant
  import opened SchedulerGuarantees
  import opened ReadGateway
  import opened ReadGatewayGuarantees
  import opened ReadGatewayTiming

  /** Nothing is due, and every armed timer lies ahead. */
  ghost predicate TimeMayPass(g: Gateway) {
    !DueNow(g) && exists at :: g.sched.clock < at && BeforeTimers(g, at)
  }

  // ---------------------------------------------------------------------------------------
  // How much can still happen without time passing.
  // ---------------------------------------------------------------------------------------

  function JobWeight(job: Job): nat {
    match job.state
    case Queued => 3
    case Running => if job.budget.None? then 2 else if job.result.Pending? then 1 else 0
    case Finished => 0
  }

  /** A first attempt may still sleep and retry; a sleeper may still submit one job. */
  function ReadWeight(read: Read): nat {
    match read.progress
    case Waiting(_) => if |read.attempts| <= 1 then 12 else 1
    case Sleeping(_) => 10
    case Answered(_, _) => 0
  }

  function JobsWeight(jobs: seq<Job>): nat {
    if jobs == [] then 0 else JobsWeight(jobs[..|jobs| - 1]) + JobWeight(jobs[|jobs| - 1])
  }

  function ReadsWeight(all: seq<Read>): nat {
    if all == [] then 0 else ReadsWeight(all[..|all| - 1]) + ReadWeight(all[|all| - 1])
  }

  function Weight(g: Gateway): nat {
    JobsWeight(g.sched.jobs) + ReadsWeight(g.clients)
  }

  lemma EvolvingWeighsLess(a: Job, b: Job)
    requires Evolves(a, b)
    ensures JobWeight(b) <= JobWeight(a)
  {
  }

  lemma {:induction false} JobsWeighLess(a: seq<Job>, b: seq<Job>)
    requires |a| == |b| && forall k :: 0 <= k < |a| ==> JobWeight(b[k]) <= JobWeight(a[k])
    ensures JobsWeight(b) <= JobsWeight(a)
    ensures (exists k :: 0 <= k < |a| && JobWeight(b[k]) < JobWeight(a[k])) ==> JobsWeight(b) < JobsWeight(a)
    decreases |a|
  {
    hide JobWeight;
    if a != [] {
      var n := |a| - 1;
      assert forall k :: 0 <= k < n ==> a[..n][k] == a[k] && b[..n][k] == b[k];
      JobsWeighLess(a[..n], b[..n]);
      if k :| 0 <= k < |a| && JobWeight(b[k]) < JobWeight(a[k]) {
        if k < n {
          assert JobWeight(b[..n][k]) < JobWeight(a[..n][k]);
        }
      }
    }
  }

  lemma {:induction false} OneReadWeighsLess(all: seq<Read>, i: nat, read: Read)
    requires i < |all|
    ensures ReadsWeight(all[i := read]) == ReadsWeight(all) - ReadWeight(all[i]) + ReadWeight(read)
    decreases |all|
  {
    hide ReadWeight;
    var n := |all| - 1;
    var r := all[i := read];
    if i < n {
      OneReadWeighsLess(all[..n], i, read);
      assert r[..n] == all[..n][i := read];
    } else {
      assert r[..n] == all[..n];
    }
  }

  lemma EvolutionWeighsLess(s: State, r: State)
    requires AllEvolve(s, r) && |r.jobs| == |s.jobs|
    ensures JobsWeight(r.jobs) <= JobsWeight(s.jobs)
    ensures (exists k :: 0 <= k < |s.jobs| && JobWeight(r.jobs[k]) < JobWeight(s.jobs[k])) ==> JobsWeight(r.jobs) < JobsWeight(s.jobs)
  {
    hide JobWeight, Evolves;
    forall k | 0 <= k < |s.jobs|
      ensures JobWeight(r.jobs[k]) <= JobWeight(s.jobs[k])
    {
      EvolvingWeighsLess(s.jobs[k], r.jobs[k]);
    }
    JobsWeighLess(s.jobs, r.jobs);
  }

  // ---------------------------------------------------------------------------------------
  // What may be due, and what each of it weighs.
  // ---------------------------------------------------------------------------------------

  /** A dispatched task has not taken its first step. */
  lemma StartingWeighsLess(g: Gateway)
    requires GatewayInv(g) && HasCurrent(g.sched) && g.sched.jobs[g.sched.current.value].budget.None?
    ensures Weight(Act(g, TaskStarts)) < Weight(g)
  {
    hide CooldownOk, ReadsOk, JobsWeight, ReadsWeight, AllEvolve;
    var s, r := g.sched, RunStarts(g.sched);
    RunningEvolves(s, OperationCancelled);
    JobStands(s, s.current.value);
    assert s.jobs[s.current.value].state == Running by { RunningJob(s); }
    assert JobWeight(r.jobs[s.current.value]) < JobWeight(s.jobs[s.current.value]);
    EvolutionWeighsLess(s, r);
  }

  predicate MayResume(g: Gateway, i: nat) {
    && i < |g.clients| && g.clients[i].progress.Waiting?
    && g.clients[i].progress.id < |g.sched.jobs| && Ready(g.sched.jobs[g.clients[i].progress.id])
  }

  lemma WhatIsDue(g: Gateway)
    ensures DueNow(g) ==>
              || (HasCurrent(g.sched) && g.sched.jobs[g.sched.current.value].budget.None?)
              || exists i :: 0 <= i < |g.clients| && MayResume(g, i)
  {
    hide Ready;
    if i :| 0 <= i < |g.clients| && g.clients[i].progress.Waiting?
            && g.clients[i].progress.id < |g.sched.jobs| && Ready(g.sched.jobs[g.clients[i].progress.id]) {
      assert MayResume(g, i);
    }
  }

  lemma ResumingWeighsLess(g: Gateway, i: nat)
    requires GatewayInv(g) && MayResume(g, i)
    ensures Weight(Act(g, Resumes(i))) < Weight(g)
  {
    hide Inv, CooldownOk, JobsWeight, ReadsWeight;
    assert ReadOk(g.config, g.sched.jobs, g.sched.clock, g.clients[i]);
    var read, job := g.clients[i], g.sched.jobs[g.clients[i].progress.id];
    var (h, r) := Resume(g, read, job);
    assert h.sched == g.sched && h.clients == g.clients;
    OneReadWeighsLess(g.clients, i, r);
  }

  predicate QueueOverdue(s: State, id: nat) {
    id < |s.jobs| && s.jobs[id].state == Queued && s.jobs[id].queueDeadline <= s.clock
  }

  lemma ExpiringWeighsLess(g: Gateway, id: nat)
    requires GatewayInv(g) && QueueOverdue(g.sched, id)
    ensures Weight(Act(g, QueueDeadlinePasses(id))) < Weight(g)
  {
    hide CooldownOk, ReadsOk, JobsWeight, ReadsWeight, AllEvolve;
    var s, r := g.sched, QueueTimer(g.sched, id);
    LeaversEvolve(s, id);
    assert JobOk(s.jobs[id], InQueue(s, id), s.current == Some(id), s.clock);
    assert r == ExpireQueued(s, id);
    assert JobWeight(r.jobs[id]) < JobWeight(s.jobs[id]);
    EvolutionWeighsLess(s, r);
  }

  predicate RunOverdue(s: State) {
    && HasCurrent(s)
    && var job := s.jobs[s.current.value];
       job.budget.Some? && job.result.Pending? && job.budget.value.deadline <= s.clock
  }

  lemma WakingWeighsLess(g: Gateway)
    requires GatewayInv(g) && RunOverdue(g.sched)
    ensures Weight(Act(g, TaskWakes)) < Weight(g)
  {
    hide CooldownOk, ReadsOk, JobsWeight, ReadsWeight, AllEvolve;
    var s, r := g.sched, LifecycleWakes(g.sched);
    InvRefs(s);
    SettledAfterWaking(s);
    BudgetsOnlySetAtStart(s, LifecycleRuns);
    assert s.(clock := s.clock) == s && Apply(s, LifecycleRuns, s.clock) == r;
    LifecycleEvolves(s);
    EvolutionWeighsLess(s, r);
  }

  /** The task's job has its answer, whichever it is, and does not run on without one. */
  lemma SettledAfterWaking(s: State)
    requires Inv(s) && RunOverdue(s) && Refs(s)
    ensures var id, r := s.current.value, LifecycleWakes(s);
            id < |r.jobs| && JobWeight(r.jobs[id]) < JobWeight(s.jobs[id])
  {
    var id := s.current.value;
    RunningJob(s);
    if s.jobs[id].op.Over? {
      var v := Vacate(WithCurrent(s, SettledJob(s.jobs[id])));
      VacateKeepsCore(s);
      DispatchEvolves(v);
      hide Dispatch;
      assert Evolves(v.jobs[id], Dispatch(v).jobs[id]);
      assert v.jobs[id].state == Finished;
    }
  }

  predicate SleepOver(g: Gateway, i: nat) {
    i < |g.clients| && g.clients[i].progress.Sleeping? && g.clients[i].progress.wakeAt <= g.sched.clock
  }

  lemma SubmittingAddsLittle(s: State, request: Request)
    requires Inv(s)
    ensures JobsWeight(Submit(s, request).0.jobs) <= JobsWeight(s.jobs) + 3
  {
    hide JobsWeight, JobWeight;
    if Refusal(s, request).None? {
      var t := Admit(s, NewJob(s, request));
      NewJobOk(s, request);
      AdmitKeepsCore(s, NewJob(s, request));
      DispatchEvolves(t);
      DispatchKeepsBudgets(t);
      EvolutionWeighsLess(t, Dispatch(t));
      OneMoreJob(s.jobs, NewJob(s, request));
    }
  }

  lemma OneMoreJob(jobs: seq<Job>, job: Job)
    ensures JobsWeight(jobs + [job]) == JobsWeight(jobs) + JobWeight(job) <= JobsWeight(jobs) + 3
  {
    assert (jobs + [job])[..|jobs|] == jobs;
  }

  lemma RetryingWeighsLess(g: Gateway, i: nat)
    requires GatewayInv(g) && SleepOver(g, i)
    ensures Weight(Act(g, Retries(i))) < Weight(g)
  {
    hide Inv, CooldownOk, JobsWeight, ReadsWeight, Submit, AttemptRequest;
    InvRefs(g.sched);
    var read := g.clients[i];
    assert ReadOk(g.config, g.sched.jobs, g.sched.clock, read);
    var (h, r) := Attempt(g, read);
    SubmittingAddsLittle(g.sched, AttemptRequest(g, read));
    RefusalAddsNothing(g.sched, AttemptRequest(g, read));
    assert ReadWeight(r) <= 1;
    assert JobsWeight(h.sched.jobs) <= JobsWeight(g.sched.jobs) + 3;
    OneReadWeighsLess(g.clients, i, r);
  }

  lemma RefusalAddsNothing(s: State, request: Request)
    requires Refs(s)
    ensures Submit(s, request).1.Rejected? ==> Submit(s, request).0 == s
  {
  }

  // ---------------------------------------------------------------------------------------
  // When none of it is due.
  // ---------------------------------------------------------------------------------------

  lemma {:induction false} QueuesLeaveTime(jobs: seq<Job>, clock: real) returns (at: real)
    requires forall id :: 0 <= id < |jobs| && jobs[id].state == Queued ==> clock < jobs[id].queueDeadline
    ensures clock < at && forall id :: 0 <= id < |jobs| && jobs[id].state == Queued ==> at <= jobs[id].queueDeadline
    decreases |jobs|
  {
    if jobs == [] {
      at := clock + 1.0;
    } else {
      var n := |jobs| - 1;
      assert forall id :: 0 <= id < n ==> jobs[..n][id] == jobs[id];
      at := QueuesLeaveTime(jobs[..n], clock);
      if jobs[n].state == Queued {
        at := Min(at, jobs[n].queueDeadline);
      }
    }
  }

  lemma {:induction false} SleepersLeaveTime(all: seq<Read>, clock: real) returns (at: real)
    requires forall i :: 0 <= i < |all| && all[i].progress.Sleeping? ==> clock < all[i].progress.wakeAt
    ensures clock < at && forall i :: 0 <= i < |all| && all[i].progress.Sleeping? ==> at <= all[i].progress.wakeAt
    decreases |all|
  {
    if all == [] {
      at := clock + 1.0;
    } else {
      var n := |all| - 1;
      assert forall i :: 0 <= i < n ==> all[..n][i] == all[i];
      at := SleepersLeaveTime(all[..n], clock);
      if all[n].progress.Sleeping? {
        at := Min(at, all[n].progress.wakeAt);
      }
    }
  }

  lemma NothingDueLeavesTime(g: Gateway)
    requires !DueNow(g) && !RunOverdue(g.sched)
    requires forall id :: 0 <= id < |g.sched.jobs| ==> !QueueOverdue(g.sched, id)
    requires forall i :: 0 <= i < |g.clients| ==> !SleepOver(g, i)
    ensures TimeMayPass(g)
  {
    var s := g.sched;
    forall id | 0 <= id < |s.jobs| && s.jobs[id].state == Queued
      ensures s.clock < s.jobs[id].queueDeadline
    {
      assert !QueueOverdue(s, id);
    }
    forall i | 0 <= i < |g.clients| && g.clients[i].progress.Sleeping?
      ensures s.clock < g.clients[i].progress.wakeAt
    {
      assert !SleepOver(g, i);
    }
    var queues := QueuesLeaveTime(s.jobs, s.clock);
    var sleeps := SleepersLeaveTime(g.clients, s.clock);
    var at := Min(queues, sleeps);
    if HasCurrent(s) && s.jobs[s.current.value].budget.Some? && s.jobs[s.current.value].result.Pending? {
      at := Min(at, s.jobs[s.current.value].budget.value.deadline);
    }
    assert s.clock < at && BeforeTimers(g, at);
  }

  // ---------------------------------------------------------------------------------------
  // The theorem.
  // ---------------------------------------------------------------------------------------

  /** Some move at this very instant lightens what is left, unless time may pass. */
  lemma SomethingSettles(g: Gateway) returns (move: Move)
    requires GatewayInv(g) && !TimeMayPass(g)
    ensures Refs(g.sched) && Weight(Act(g, move)) < Weight(g)
  {
    InvRefs(g.sched);
    hide GatewayInv, Weight, Act, Inv, TimeMayPass, BeforeTimers, Refs;
    if HasCurrent(g.sched) && g.sched.jobs[g.sched.current.value].budget.None? {
      StartingWeighsLess(g);
      move := TaskStarts;
    } else if i :| 0 <= i < |g.clients| && MayResume(g, i) {
      ResumingWeighsLess(g, i);
      move := Resumes(i);
    } else if id :| 0 <= id < |g.sched.jobs| && QueueOverdue(g.sched, id) {
      ExpiringWeighsLess(g, id);
      move := QueueDeadlinePasses(id);
    } else if RunOverdue(g.sched) {
      WakingWeighsLess(g);
      move := TaskWakes;
    } else if i :| 0 <= i < |g.clients| && SleepOver(g, i) {
      RetryingWeighsLess(g, i);
      move := Retries(i);
    } else {
      WhatIsDue(g);
      NothingDueLeavesTime(g);
      assert false;
    }
  }

  /** From every state of a punctual run some finite, punctual continuation at the present
      instant leads to a state in which time may advance: punctuality constrains when things
      happen and never makes them impossible. */
  lemma {:induction false} TimeCanAlwaysPass(g: Gateway) returns (moves: seq<TimedMove>)
    requires GatewayInv(g) && InTime(g)
    ensures PunctualRun(g, moves)
    ensures forall k :: 0 <= k < |moves| ==> moves[k].at == g.sched.clock
    ensures InTime(RunReads(g, moves)) && TimeMayPass(RunReads(g, moves))
    decreases Weight(g)
  {
    hide GatewayInv, InTime, TimeMayPass, Weight, Act, Proceed;
    if TimeMayPass(g) {
      moves := [];
    } else {
      var move := SomethingSettles(g);
      var first := TimedMove(move, g.sched.clock);
      MovingNow(g, move);
      MoveInTime(g, first);
      var rest := TimeCanAlwaysPass(Moved(g, first));
      moves := [first] + rest;
      assert moves[0] == first && moves[1..] == rest;
    }
  }

  lemma MovingNow(g: Gateway, move: Move)
    requires GatewayInv(g)
    ensures Refs(g.sched)
    ensures Moved(g, TimedMove(move, g.sched.clock)) == Act(g, move)
    ensures Act(g, move).sched.clock == g.sched.clock
  {
    InvRefs(g.sched);
    assert At(g, g.sched.clock) == g;
    ActFrame(g, move);
  }
}
