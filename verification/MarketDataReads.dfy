/** The reads above the scheduler, updating the shared backoff and their own progress in place. */
module MarketDataReads {
  import opened Common
  import opened Failures
  import opened DispatchBoard
  import opened SchedulerModel
  import opened SchedulerInvariant
  import opened ExecutionSchedulers
  import opened ReadGateway
  import opened ReadGatewayGuarantees

  class MarketDataReads {
    const config: Config
    const scheduler: ExecutionScheduler
    var until: real
    var clients: seq<Read>
    ghost var log: seq<CooldownEvent>

    ghost function Model(): Gateway
      reads this, scheduler
    {
      Gateway(config, scheduler.Model(), until, clients, log)
    }

    ghost predicate Valid()
      reads this, scheduler
    {
      GatewayInv(Model()) && scheduler.Valid()
    }

    constructor (config: Config, protectedCapacity: nat, backgroundCapacity: nat)
      requires ConfigOk(config)
      ensures Valid() && fresh(scheduler)
      ensures Model() == Open(config, PerClass(protectedCapacity, backgroundCapacity))
    {
      this.config := config;
      scheduler := new ExecutionScheduler(protectedCapacity, backgroundCapacity);
      until, clients, log := 0.0, [], [];
      new;
      OpenInv(config, PerClass(protectedCapacity, backgroundCapacity));
    }

    /** What every move leaves behind. */
    lemma MoveKeeps(move: Move, now: real)
      requires Valid() && scheduler.clock <= now
      ensures GatewayInv(At(Model(), now)) && Refs(At(Model(), now).sched) && Refs(Model().sched)
      ensures GatewayInv(Proceed(Model(), move, now)) && Inv(Proceed(Model(), move, now).sched)
      ensures Proceed(Model(), move, now) == Act(At(Model(), now), move)
    {
      hide Inv, Act, Proceed;
      TimePasses(Model(), now);
      ActKeeps(At(Model(), now), move);
      RefsOf(Model().sched, now);
      ProceedActs(Model(), move, now);
    }

    lemma RefsOf(s: State, now: real)
      requires Inv(s)
      ensures Refs(s) && Refs(s.(clock := now))
    {
    }

    lemma ProceedActs(g: Gateway, move: Move, now: real)
      requires Refs(g.sched) && g.sched.clock <= now
      ensures Proceed(g, move, now) == Act(At(g, now), move)
    {
    }

    /** A noted rate limit pushes the backoff out for everybody. */
    method NoteRateLimit(meta: Metadata, now: real)
      requires scheduler.clock == now
      modifies this`until, this`log
      ensures Model() == Note(old(Model()), meta)
    {
      var delay := DelayOf(meta);
      if until < now + delay {
        until := now + delay;
      }
      log := log + [Noted(now, delay)];
    }

    /** One round of the attempt loop, up to the wait for the scheduler. */
    method AttemptRead(read: Read, now: real) returns (r: Read)
      requires scheduler.Valid() && scheduler.clock == now && Refs(scheduler.Model())
      modifies scheduler
      ensures (Model(), r) == Attempt(old(Model()), read)
      ensures scheduler.Valid()
    {
      hide Inv, Submit;
      var cooldown := until - now;
      if cooldown > 0.0 {
        return read.(progress := Answered(RateLimitedReply(Some(Ceiling(cooldown))), now));
      }
      var patience := config.queueTimeout.At(read.priority);
      var request := Request(read.priority, true, patience, config.upstreamTimeout, None);
      if read.attempts != [] {
        var remaining := Max(MIN_REMAINING, read.deadline - now);
        request := Request(read.priority, true, Min(patience, remaining), remaining, Some(read.deadline));
      }
      RefusalChangesNothing(scheduler.Model(), request);
      var reply := scheduler.Execute(request, now);
      match reply
      case Accepted(id) => r := read.(attempts := read.attempts + [id], progress := Waiting(id));
      case Rejected(InvalidArgument) => r := read.(progress := Answered(MalformedReply, now));
      case Rejected(_) => r := read.(progress := Answered(CapacityReply, now));
    }

    lemma RefusalChangesNothing(s: State, request: Request)
      requires Refs(s)
      ensures Submit(s, request).1.Rejected? ==> Submit(s, request).0 == s
    {
    }

    method ReadArrives(priority: Priority, retryable: bool, now: real)
      requires Valid() && scheduler.clock <= now
      modifies this, scheduler
      ensures Model() == Proceed(old(Model()), Arrives(priority, retryable), now)
      ensures Valid()
    {
      hide GatewayInv, Inv, Attempt, Proceed;
      MoveKeeps(Arrives(priority, retryable), now);
      scheduler.Await(now);
      var read := Read(priority, retryable, now, now + config.upstreamTimeout, [], Sleeping(now), false);
      read := AttemptRead(read, now);
      clients := clients + [read];
    }

    /** The pause before the replacement attempt is over. */
    method RetryWakesUp(i: nat, now: real)
      requires Valid() && scheduler.clock <= now
      modifies this, scheduler
      ensures Model() == Proceed(old(Model()), Retries(i), now)
      ensures Valid()
    {
      hide GatewayInv, Inv, Attempt, Proceed;
      MoveKeeps(Retries(i), now);
      scheduler.Await(now);
      if i < |clients| && clients[i].progress.Sleeping? && clients[i].progress.wakeAt <= now {
        var read := AttemptRead(clients[i], now);
        clients := clients[i := read];
      }
    }

    /** The guarded operation starts; while the cooldown lasts it ends at once, unbuilt. */
    method BuildStarts(now: real)
      requires Valid() && scheduler.clock <= now
      modifies this, scheduler
      ensures Model() == Proceed(old(Model()), Move.BuildStarts, now)
      ensures Valid()
    {
      hide GatewayInv, Inv, Proceed, OperationEnds;
      MoveKeeps(Move.BuildStarts, now);
      scheduler.Await(now);
      var starts := scheduler.current.Some? && scheduler.current.value < |scheduler.jobs|
                    && scheduler.jobs[scheduler.current.value].budget.Some?
                    && scheduler.jobs[scheduler.current.value].op.Unborn?;
      scheduler.OperationStarted(now);
      if !starts {
        return;
      }
      var cooldown := until - now;
      if cooldown > 0.0 {
        var meta: Metadata := Metadata(RateLimited, Some(Min(MAX_HINT, cooldown)));
        scheduler.OperationFinished(Raised(Unavailable(meta)), now);
      } else {
        log := log + [BuildBegan(scheduler.current.value, now)];
      }
    }

    /** The provider read ends; a rate limit is noted before the caller hears of it. */
    method BuildStops(own: Outcome, now: real)
      requires Valid() && scheduler.clock <= now
      modifies this, scheduler
      ensures Model() == Proceed(old(Model()), Move.BuildStops(own), now)
      ensures Valid()
    {
      hide GatewayInv, Inv, Proceed, Note;
      MoveKeeps(Move.BuildStops(own), now);
      scheduler.Await(now);
      var ends := scheduler.current.Some? && scheduler.current.value < |scheduler.jobs|
                  && scheduler.jobs[scheduler.current.value].op.Alive?;
      scheduler.OperationFinished(own, now);
      if ends && own.Raised? && own.failure.Unavailable? && own.failure.meta.cause.RateLimited? {
        NoteRateLimit(own.failure.meta, now);
      }
    }

    /** A read resumes with what `execute` handed back, or goes to sleep before its one retry. */
    method ReadResumes(i: nat, now: real)
      requires Valid() && scheduler.clock <= now
      modifies this, scheduler
      ensures Model() == Proceed(old(Model()), Resumes(i), now)
      ensures Valid()
    {
      hide GatewayInv, Inv, Proceed, Note;
      MoveKeeps(Resumes(i), now);
      scheduler.Await(now);
      if i >= |clients| || !clients[i].progress.Waiting? || clients[i].progress.id >= |scheduler.jobs| {
        return;
      }
      var read, job := clients[i], scheduler.jobs[clients[i].progress.id];
      if !Ready(job) {
        return;
      }
      var progress := Answered(Aborted, now);
      if job.started.StartTimedOut? {
        progress := Answered(QueueTimeoutReply, now);
      } else if !job.started.StartWithdrawn? {
        match job.result
        case Own(Returned(value)) => progress := Answered(Body(value), now);
        case Own(Raised(Malformed)) => progress := Answered(MalformedReply, now);
        case Own(Raised(Unavailable(meta))) =>
          if meta.cause.RateLimited? {
            NoteRateLimit(meta, now);
          }
          if meta.cause.ConnectTimeout? && |read.attempts| == 1 && read.retryable && read.deadline - now >= RETRY_RESERVE {
            progress := Sleeping(now + RETRY_PAUSE);
          } else {
            progress := Answered(FailureReply(meta), now);
          }
        case UpstreamTimeout => progress := Answered(UpstreamTimeoutReply, now);
        case _ =>
      }
      clients := clients[i := read.(progress := progress)];
    }

    /** The client disconnects; a running operation keeps the slot. */
    method ReadLeaves(i: nat, now: real)
      requires Valid() && scheduler.clock <= now
      modifies this, scheduler
      ensures Model() == Proceed(old(Model()), Leaves(i), now)
      ensures Valid()
    {
      hide GatewayInv, Inv, Proceed;
      MoveKeeps(Leaves(i), now);
      scheduler.Await(now);
      if i < |clients| && !clients[i].progress.Answered? {
        if clients[i].progress.Waiting? && clients[i].progress.id < |scheduler.jobs| {
          scheduler.CallerCancelled(clients[i].progress.id, now);
        }
        clients := clients[i := clients[i].(progress := Answered(Aborted, now), left := true)];
      }
    }

    /** A read that joined another one's fetch is told that fetch's failure. */
    method JoinedReadFails(priority: Priority, meta: Metadata, now: real)
      requires Valid() && scheduler.clock <= now
      modifies this, scheduler
      ensures Model() == Proceed(old(Model()), Move.JoinedReadFails(priority, meta), now)
      ensures Valid()
    {
      hide GatewayInv, Inv, Proceed, Note;
      MoveKeeps(Move.JoinedReadFails(priority, meta), now);
      scheduler.Await(now);
      if meta.cause.RateLimited? {
        NoteRateLimit(meta, now);
      }
      clients := clients + [Read(priority, false, now, now + config.upstreamTimeout, [], Answered(FailureReply(meta), now), false)];
    }

    // Moves of the scheduler alone.

    method TaskStarts(now: real)
      requires Valid() && scheduler.clock <= now
      modifies this, scheduler
      ensures Model() == Proceed(old(Model()), Move.TaskStarts, now)
      ensures Valid()
    {
      hide GatewayInv, Inv, Proceed, QueueTimer, RunStarts, LifecycleWakes, Shutdown;
      MoveKeeps(Move.TaskStarts, now);
      scheduler.LifecycleBegins(now);
    }

    method TaskWakes(now: real)
      requires Valid() && scheduler.clock <= now
      modifies this, scheduler
      ensures Model() == Proceed(old(Model()), Move.TaskWakes, now)
      ensures Valid()
    {
      hide GatewayInv, Inv, Proceed, QueueTimer, RunStarts, LifecycleWakes, Shutdown;
      MoveKeeps(Move.TaskWakes, now);
      scheduler.LifecycleWakesUp(now);
    }

    method QueueDeadlinePasses(id: nat, now: real)
      requires Valid() && scheduler.clock <= now
      requires id < |scheduler.jobs| && scheduler.jobs[id].queueDeadline <= now
      modifies this, scheduler
      ensures Model() == Proceed(old(Model()), Move.QueueDeadlinePasses(id), now)
      ensures Valid()
    {
      hide GatewayInv, Inv, Proceed, QueueTimer, RunStarts, LifecycleWakes, Shutdown;
      MoveKeeps(Move.QueueDeadlinePasses(id), now);
      var timedOut := scheduler.QueueDeadlineFires(id, now);
    }

    method Stops(now: real)
      requires Valid() && scheduler.clock <= now
      modifies this, scheduler
      ensures Model() == Proceed(old(Model()), Move.Stops, now)
      ensures Valid()
    {
      hide GatewayInv, Inv, Proceed, QueueTimer, RunStarts, LifecycleWakes, Shutdown;
      MoveKeeps(Move.Stops, now);
      scheduler.Shutdown(now);
    }
  }
}
