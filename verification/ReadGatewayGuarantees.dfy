/** Retry budget and cooldown, over every interleaving of reads. */
module ReadGatewayGuarantees {
  import opened Common
  import opened Failures
  import opened DispatchBoard
  import opened SchedulerModel
  import opened SchedulerInvariant
  import opened SchedulerGuarantees
  import opened ReadGateway

  // ---------------------------------------------------------------------------------------
  // Cooldown.
  // ---------------------------------------------------------------------------------------

  /** Every noted rate limit is still covered by `until`, and no build ever began inside one. */
  ghost predicate CooldownOk(g: Gateway) {
    && g.until <= g.sched.clock + MAX_HINT
    && (forall i :: 0 <= i < |g.log| && g.log[i].Noted? ==>
          g.log[i].at + g.log[i].delay <= g.until && 1.0 <= g.log[i].delay <= MAX_HINT)
    && (forall i, j :: 0 <= i < j < |g.log| && g.log[i].Noted? && g.log[j].BuildBegan? ==>
          g.log[i].at + g.log[i].delay <= g.log[j].at)
  }

  lemma NoteKeepsCooldown(g: Gateway, meta: Metadata)
    requires CooldownOk(g)
    ensures CooldownOk(Note(g, meta)) && g.until <= Note(g, meta).until
  {
  }

  lemma BuildKeepsCooldown(g: Gateway, id: nat)
    requires CooldownOk(g) && Cooldown(g) <= 0.0
    ensures CooldownOk(g.(log := g.log + [BuildBegan(id, g.sched.clock)]))
  {
  }

  // ---------------------------------------------------------------------------------------
  // One read and its jobs.
  // ---------------------------------------------------------------------------------------

  predicate FailedConnecting(job: Job) {
    && job.state == Finished && job.op.Over?
    && job.result.Own? && job.result.outcome.Raised? && job.result.outcome.failure.Unavailable?
    && job.result.outcome.failure.meta.cause.ConnectTimeout?
  }

  predicate FirstAttempt(config: Config, read: Read, job: Job) {
    && job.enqueuedAt == read.arrivedAt
    && job.queueDeadline == read.arrivedAt + config.queueTimeout.At(read.priority)
    && job.executionTimeout == config.upstreamTimeout
    && job.requestDeadline.None?
  }

  /** The replacement attempt may queue and run for what is left of the first one's time, and
      queue no longer than a read of its class ever may. */
  predicate RetryBudgets(config: Config, read: Read, job: Job) {
    var remaining := if read.deadline - job.enqueuedAt > 0.001 then read.deadline - job.enqueuedAt else 0.001;
    var patience := if config.queueTimeout.At(read.priority) < remaining then config.queueTimeout.At(read.priority) else remaining;
    && job.executionTimeout == remaining
    && job.queueDeadline == if read.deadline < job.enqueuedAt + patience then read.deadline else job.enqueuedAt + patience
  }

  /** The replacement attempt is bounded by the first one's absolute deadline. */
  predicate SecondAttempt(config: Config, read: Read, first: Job, job: Job) {
    && FailedConnecting(first)
    && first.op.endedAt + RETRY_PAUSE <= job.enqueuedAt
    && job.requestDeadline == Some(read.deadline)
    && job.queueDeadline <= read.deadline
    && RetryBudgets(config, read, job)
  }

  ghost predicate ReadOk(config: Config, jobs: seq<Job>, clock: real, read: Read) {
    && |read.attempts| <= 2
    && (forall k :: 0 <= k < |read.attempts| ==> read.attempts[k] < |jobs| && jobs[read.attempts[k]].priority == read.priority)
    && read.deadline == read.arrivedAt + config.upstreamTimeout
    && read.arrivedAt <= clock
    && (|read.attempts| >= 1 ==> FirstAttempt(config, read, jobs[read.attempts[0]]))
    && (|read.attempts| == 2 ==>
          && read.retryable
          && SecondAttempt(config, read, jobs[read.attempts[0]], jobs[read.attempts[1]]))
    && match read.progress
       case Waiting(id) => read.attempts != [] && read.attempts[|read.attempts| - 1] == id
       case Sleeping(wakeAt) =>
         && |read.attempts| == 1 && read.retryable && FailedConnecting(jobs[read.attempts[0]])
         && jobs[read.attempts[0]].op.endedAt + RETRY_PAUSE <= wakeAt
         && wakeAt <= read.deadline - (RETRY_RESERVE - RETRY_PAUSE)
       case Answered(response, at) =>
         && at <= clock
         && (response.RateLimitedReply? && response.retryAfter.Some? ==> 1 <= response.retryAfter.value <= 60)
  }

  predicate ConfigOk(config: Config) {
    config.queueTimeout.first > 0.0 && config.queueTimeout.second > 0.0 && config.upstreamTimeout > 0.0
  }

  ghost predicate ReadsOk(g: Gateway) {
    forall i :: 0 <= i < |g.clients| ==> ReadOk(g.config, g.sched.jobs, g.sched.clock, g.clients[i])
  }

  ghost predicate GatewayInv(g: Gateway) {
    ConfigOk(g.config) && Inv(g.sched) && CooldownOk(g) && ReadsOk(g)
  }

  /** `r` is a sound successor of `g`: the backoff did not shrink. */
  ghost predicate Follows(g: Gateway, r: Gateway) {
    GatewayInv(r) && g.until <= r.until && r.config == g.config && r.sched.clock == g.sched.clock
  }

  lemma InvRefs(s: State)
    requires Inv(s)
    ensures Refs(s)
  {
  }

  /** What a read relies on never changes under the scheduler's steps. */
  lemma ReadStaysOk(config: Config, s: State, r: State, read: Read)
    requires AllEvolve(s, r) && s.clock <= r.clock
    requires ReadOk(config, s.jobs, s.clock, read)
    ensures ReadOk(config, r.jobs, r.clock, read)
  {
    forall k | 0 <= k < |read.attempts|
      ensures Evolves(s.jobs[read.attempts[k]], r.jobs[read.attempts[k]])
    {
    }
  }

  lemma ReadsStayOk(g: Gateway, r: State)
    requires ReadsOk(g) && AllEvolve(g.sched, r) && g.sched.clock <= r.clock
    ensures ReadsOk(g.(sched := r))
  {
    forall i | 0 <= i < |g.clients|
      ensures ReadOk(g.config, r.jobs, r.clock, g.clients[i])
    {
      ReadStaysOk(g.config, g.sched, r, g.clients[i]);
    }
  }

  lemma ReadChanges(g: Gateway, i: nat, read: Read)
    requires ReadsOk(g) && i < |g.clients| && ReadOk(g.config, g.sched.jobs, g.sched.clock, read)
    ensures ReadsOk(g.(clients := g.clients[i := read]))
  {
  }

  lemma ReadAdded(g: Gateway, read: Read)
    requires ReadsOk(g) && ReadOk(g.config, g.sched.jobs, g.sched.clock, read)
    ensures ReadsOk(g.(clients := g.clients + [read]))
  {
  }

  // ---------------------------------------------------------------------------------------
  // Moves keep the invariant.
  // ---------------------------------------------------------------------------------------

  /** The record an accepted submission leaves behind. */
  lemma SubmittedJob(s: State, request: Request)
    requires Inv(s) && Submit(s, request).1.Accepted?
    ensures var id := Submit(s, request).1.id;
            var r := Submit(s, request).0;
            && id == |s.jobs| < |r.jobs|
            && Evolves(NewJob(s, request), r.jobs[id])
            && Inv(r) && AllEvolve(s, r) && r.clock == s.clock
  {
    SubmitKeepsInv(s, request);
    SubmitEvolves(s, request);
    NewJobOk(s, request);
    AdmitKeepsCore(s, NewJob(s, request));
    var t := Admit(s, NewJob(s, request));
    DispatchEvolves(t);
    assert t.jobs[|s.jobs|] == NewJob(s, request);
    assert Evolves(t.jobs[|s.jobs|], Dispatch(t).jobs[|s.jobs|]);
  }

  /** A read that may start an attempt now: new, or at the end of its pause. */
  ghost predicate MayAttempt(g: Gateway, read: Read) {
    && read.deadline == read.arrivedAt + g.config.upstreamTimeout
    && if read.attempts == [] then read.arrivedAt == g.sched.clock
       else ReadOk(g.config, g.sched.jobs, g.sched.clock, read)
            && read.progress.Sleeping? && read.progress.wakeAt <= g.sched.clock
  }

  lemma AcceptedReadOk(g: Gateway, read: Read)
    requires ConfigOk(g.config) && Inv(g.sched) && MayAttempt(g, read)
    requires Submit(g.sched, AttemptRequest(g, read)).1.Accepted?
    ensures var r := Submit(g.sched, AttemptRequest(g, read)).0;
            var id := |g.sched.jobs|;
            ReadOk(g.config, r.jobs, r.clock, read.(attempts := read.attempts + [id], progress := Waiting(id)))
  {
    var s := g.sched;
    SubmittedJob(s, AttemptRequest(g, read));
    if read.attempts != [] {
      assert Evolves(s.jobs[read.attempts[0]], Submit(s, AttemptRequest(g, read)).0.jobs[read.attempts[0]]);
    }
  }

  lemma CooldownReply(g: Gateway, read: Read)
    requires MayAttempt(g, read) && Cooldown(g) > 0.0 && CooldownOk(g)
    ensures ReadOk(g.config, g.sched.jobs, g.sched.clock,
                   read.(progress := Answered(RateLimitedReply(Some(Ceiling(Cooldown(g)))), g.sched.clock)))
  {
    RetryAfterRoundTrip(Cooldown(g));
  }

  lemma RefusedReadOk(g: Gateway, read: Read, response: Response)
    requires MayAttempt(g, read) && !response.RateLimitedReply?
    ensures ReadOk(g.config, g.sched.jobs, g.sched.clock, read.(progress := Answered(response, g.sched.clock)))
  {
  }

  lemma AttemptKeeps(g: Gateway, read: Read)
    requires GatewayInv(g) && MayAttempt(g, read)
    ensures var (h, r) := Attempt(g, read);
            Follows(g, h) && ReadOk(h.config, h.sched.jobs, h.sched.clock, r) && h.clients == g.clients
  {
    hide Inv, Submit, ReadOk, AllEvolve;
    InvRefs(g.sched);
    if Cooldown(g) > 0.0 {
      CooldownReply(g, read);
    } else {
      if Submit(g.sched, AttemptRequest(g, read)).1.Accepted? {
        SubmittedJob(g.sched, AttemptRequest(g, read));
        AcceptedReadOk(g, read);
        ReadsStayOk(g, Submit(g.sched, AttemptRequest(g, read)).0);
      } else {
        RefusedReadOk(g, read, MalformedReply);
        RefusedReadOk(g, read, CapacityReply);
      }
    }
  }

  lemma ArriveKeeps(g: Gateway, priority: Priority, retryable: bool)
    requires GatewayInv(g)
    ensures Follows(g, Arrive(g, priority, retryable))
  {
    hide Inv, Attempt, ReadOk;
    InvRefs(g.sched);
    var read := Read(priority, retryable, g.sched.clock, g.sched.clock + g.config.upstreamTimeout, [], Sleeping(g.sched.clock), false);
    AttemptKeeps(g, read);
    var (h, r) := Attempt(g, read);
    ReadAdded(h, r);
  }

  lemma SleeperMayAttempt(g: Gateway, i: nat)
    requires ReadsOk(g) && i < |g.clients|
    requires g.clients[i].progress.Sleeping? && g.clients[i].progress.wakeAt <= g.sched.clock
    ensures MayAttempt(g, g.clients[i])
  {
  }

  lemma RetryKeeps(g: Gateway, i: nat)
    requires GatewayInv(g)
    ensures Follows(g, RetryWakes(g, i))
  {
    hide Inv, Attempt, ReadOk;
    InvRefs(g.sched);
    if RetryWakes(g, i) != g {
      assert ReadOk(g.config, g.sched.jobs, g.sched.clock, g.clients[i]);
      assert MayAttempt(g, g.clients[i]) by { SleeperMayAttempt(g, i); }
      AttemptKeeps(g, g.clients[i]);
      var (h, r) := Attempt(g, g.clients[i]);
      ReadChanges(h, i, r);
    }
  }

  lemma SchedulerMoveKeeps(g: Gateway, r: State)
    requires GatewayInv(g) && Inv(r) && AllEvolve(g.sched, r) && r.clock == g.sched.clock
    ensures Follows(g, g.(sched := r))
  {
    ReadsStayOk(g, r);
  }

  lemma BuildBeginsKeeps(g: Gateway)
    requires GatewayInv(g)
    ensures Follows(g, BuildBegins(g))
  {
    var s := OperationBegins(g.sched);
    if s != g.sched && HasCurrent(s) {
      OperationBeginsKeepsInv(g.sched);
      RunningEvolves(g.sched, OperationCancelled);
      SchedulerMoveKeeps(g, s);
      if Cooldown(g) > 0.0 {
        var meta: Metadata := Metadata(RateLimited, Some(Min(MAX_HINT, Cooldown(g))));
        OperationEndsKeepsInv(s, Raised(Unavailable(meta)));
        RunningEvolves(s, Raised(Unavailable(meta)));
        SchedulerMoveKeeps(g.(sched := s), OperationEnds(s, Raised(Unavailable(meta))));
      } else {
        BuildKeepsCooldown(g.(sched := s), s.current.value);
      }
    }
  }

  lemma BuildEndsKeeps(g: Gateway, own: Outcome)
    requires GatewayInv(g)
    ensures Follows(g, BuildEnds(g, own))
  {
    var s := OperationEnds(g.sched, own);
    OperationEndsKeepsInv(g.sched, own);
    RunningEvolves(g.sched, own);
    SchedulerMoveKeeps(g, s);
    if own.Raised? && own.failure.Unavailable? {
      NoteKeepsCooldown(g.(sched := s), own.failure.meta);
    }
  }

  /** A failed connection that answered its caller has released the slot. */
  lemma AnsweredJob(s: State, id: nat)
    requires Inv(s) && id < |s.jobs|
    ensures s.jobs[id].result.Own? ==> s.jobs[id].op.Over? && s.jobs[id].state == Finished && s.jobs[id].op.endedAt <= s.clock
  {
    assert JobOk(s.jobs[id], InQueue(s, id), s.current == Some(id), s.clock);
  }

  lemma AnsweredReadOk(config: Config, jobs: seq<Job>, clock: real, read: Read, response: Response)
    requires ReadOk(config, jobs, clock, read)
    requires response.RateLimitedReply? && response.retryAfter.Some? ==> 1 <= response.retryAfter.value <= 60
    ensures ReadOk(config, jobs, clock, read.(progress := Answered(response, clock)))
  {
  }

  lemma LeftReadOk(config: Config, jobs: seq<Job>, clock: real, read: Read)
    requires ReadOk(config, jobs, clock, read)
    ensures ReadOk(config, jobs, clock, read.(progress := Answered(Aborted, clock), left := true))
  {
  }

  lemma RetryingReadOk(config: Config, jobs: seq<Job>, clock: real, read: Read)
    requires ReadOk(config, jobs, clock, read)
    requires |read.attempts| == 1 && read.retryable && read.deadline - clock >= RETRY_RESERVE
    requires FailedConnecting(jobs[read.attempts[0]]) && jobs[read.attempts[0]].op.endedAt <= clock
    ensures ReadOk(config, jobs, clock, read.(progress := Sleeping(clock + RETRY_PAUSE)))
  {
  }

  lemma LastAttempt(config: Config, jobs: seq<Job>, clock: real, read: Read)
    requires ReadOk(config, jobs, clock, read) && read.progress.Waiting?
    ensures read.attempts != [] && read.progress.id == read.attempts[|read.attempts| - 1] < |jobs|
  {
  }

  lemma ResumedReadOk(g: Gateway, read: Read)
    requires Inv(g.sched) && ReadOk(g.config, g.sched.jobs, g.sched.clock, read)
    requires read.progress.Waiting? && Ready(g.sched.jobs[read.progress.id])
    ensures ReadOk(g.config, g.sched.jobs, g.sched.clock, Resume(g, read, g.sched.jobs[read.progress.id]).1)
  {
    hide Inv, ReadOk;
    LastAttempt(g.config, g.sched.jobs, g.sched.clock, read);
    AnsweredJob(g.sched, read.progress.id);
    var r := Resume(g, read, g.sched.jobs[read.progress.id]).1;
    if r.progress.Sleeping? {
      RetryingReadOk(g.config, g.sched.jobs, g.sched.clock, read);
    } else {
      match g.sched.jobs[read.progress.id].result {
        case Own(Raised(Unavailable(meta))) => RetryAfterRoundTrip(DelayOf(meta));
        case _ =>
      }
      AnsweredReadOk(g.config, g.sched.jobs, g.sched.clock, read, r.progress.response);
    }
  }

  lemma CooldownIgnoresClients(g: Gateway, clients: seq<Read>)
    requires CooldownOk(g)
    ensures CooldownOk(g.(clients := clients))
  {
  }

  lemma ResumeKeepsCooldown(g: Gateway, read: Read, job: Job)
    requires CooldownOk(g)
    ensures var h := Resume(g, read, job).0;
            && CooldownOk(h) && g.until <= h.until
            && h.sched == g.sched && h.config == g.config && h.clients == g.clients
  {
    hide CooldownOk, DelayOf;
    if job.result.Own? && job.result.outcome.Raised? && job.result.outcome.failure.Unavailable? {
      NoteKeepsCooldown(g, job.result.outcome.failure.meta);
    }
  }

  lemma ResumeKeeps(g: Gateway, i: nat)
    requires GatewayInv(g)
    ensures Follows(g, CallerResumes(g, i))
  {
    hide Inv, ReadOk, CooldownOk, Ready, Resume;
    if i < |g.clients| && g.clients[i].progress.Waiting? && g.clients[i].progress.id < |g.sched.jobs|
       && Ready(g.sched.jobs[g.clients[i].progress.id]) {
      var job := g.sched.jobs[g.clients[i].progress.id];
      assert ReadOk(g.config, g.sched.jobs, g.sched.clock, g.clients[i]);
      ResumedReadOk(g, g.clients[i]);
      var (h, r) := Resume(g, g.clients[i], job);
      ResumeKeepsCooldown(g, g.clients[i], job);
      CooldownIgnoresClients(h, h.clients[i := r]);
      ReadChanges(h, i, r);
    }
  }

  lemma LeaverFrame(s: State, progress: Progress)
    requires Inv(s)
    ensures var r := if progress.Waiting? then CallerCancel(s, progress.id) else s;
            Inv(r) && AllEvolve(s, r) && r.clock == s.clock
  {
    if progress.Waiting? {
      CallerCancelKeepsInv(s, progress.id);
      LeaversEvolve(s, progress.id);
    }
  }

  lemma LeaveKeeps(g: Gateway, i: nat)
    requires GatewayInv(g)
    ensures Follows(g, CallerLeaves(g, i))
  {
    hide Inv, AllEvolve, CallerCancel, CooldownOk, ReadOk;
    if i < |g.clients| && !g.clients[i].progress.Answered? {
      var sched := CallerLeaves(g, i).sched;
      LeaverFrame(g.sched, g.clients[i].progress);
      SchedulerMoveKeeps(g, sched);
      assert ReadOk(g.config, sched.jobs, sched.clock, g.(sched := sched).clients[i]);
      LeftReadOk(g.config, sched.jobs, sched.clock, g.clients[i]);
      CooldownIgnoresClients(g.(sched := sched), CallerLeaves(g, i).clients);
      ReadChanges(g.(sched := sched), i, g.clients[i].(progress := Answered(Aborted, sched.clock), left := true));
    }
  }

  lemma QuietMove(g: Gateway, move: Move, step: Step)
    requires GatewayInv(g)
    requires match move
             case QueueDeadlinePasses(id) => step == QueueTimeout(id)
             case TaskStarts => step == LifecycleStarts
             case TaskWakes => step == LifecycleRuns
             case Stops => step == ShutdownCalled
             case _ => false
    ensures Act(g, move) == g.(sched := Apply(g.sched, step, g.sched.clock))
  {
    hide GatewayInv, QueueTimer, RunStarts, LifecycleWakes, Shutdown;
    assert g.sched.(clock := g.sched.clock) == g.sched;
  }

  /** Scheduler moves the gateway does not take part in. */
  lemma QuietMoveKeeps(g: Gateway, move: Move)
    requires GatewayInv(g)
    requires move.QueueDeadlinePasses? || move.TaskStarts? || move.TaskWakes? || move.Stops?
    ensures Follows(g, Act(g, move))
  {
    var step := match move
                case QueueDeadlinePasses(id) => QueueTimeout(id)
                case TaskStarts => LifecycleStarts
                case TaskWakes => LifecycleRuns
                case _ => ShutdownCalled;
    var r := Apply(g.sched, step, g.sched.clock);
    assert Act(g, move) == g.(sched := r) by { QuietMove(g, move, step); }
    hide Inv, AllEvolve, Apply, Act;
    StepKeepsInv(g.sched, step, g.sched.clock);
    StepEvolves(g.sched, step, g.sched.clock);
    SchedulerMoveKeeps(g, r);
  }

  lemma ActKeeps(g: Gateway, move: Move)
    requires GatewayInv(g)
    ensures Follows(g, Act(g, move))
  {
    hide GatewayInv;
    match move
    case Arrives(priority, retryable) => ArriveKeeps(g, priority, retryable);
    case BuildStarts => BuildBeginsKeeps(g);
    case BuildStops(own) => BuildEndsKeeps(g, own);
    case Resumes(i) => ResumeKeeps(g, i);
    case Leaves(i) => LeaveKeeps(g, i);
    case Retries(i) => RetryKeeps(g, i);
    case JoinedReadFails(priority, meta) => JoinedKeeps(g, priority, meta);
    case _ => QuietMoveKeeps(g, move);
  }

  lemma JoinedKeeps(g: Gateway, priority: Priority, meta: Metadata)
    requires GatewayInv(g)
    ensures Follows(g, JoinedFails(g, priority, meta))
  {
    hide Inv, ReadOk;
    NoteKeepsCooldown(g, meta);
    var h := if meta.cause.RateLimited? then Note(g, meta) else g;
    JoinedReadIsOk(g, priority, meta);
    ReadAdded(h, JoinedRead(g, priority, meta));
  }

  lemma JoinedReadIsOk(g: Gateway, priority: Priority, meta: Metadata)
    ensures ReadOk(g.config, g.sched.jobs, g.sched.clock, JoinedRead(g, priority, meta))
  {
    RetryAfterRoundTrip(DelayOf(meta));
  }

  // ---------------------------------------------------------------------------------------
  // Runs.
  // ---------------------------------------------------------------------------------------

  datatype TimedMove = TimedMove(move: Move, at: real)

  lemma TimePasses(g: Gateway, at: real)
    requires GatewayInv(g) && g.sched.clock <= at
    ensures GatewayInv(At(g, at))
  {
    ClockForward(g.sched, at);
    hide Inv;
    assert AllEvolve(g.sched, At(g, at).sched);
    ReadsStayOk(g, At(g, at).sched);
  }

  ghost function Moved(g: Gateway, m: TimedMove): (r: Gateway)
    requires GatewayInv(g)
    ensures GatewayInv(r) && g.until <= r.until && r.config == g.config
  {
    InvRefs(g.sched);
    if g.sched.clock <= m.at then
      TimePasses(g, m.at);
      ActKeeps(At(g, m.at), m.move);
      Proceed(g, m.move, m.at)
    else
      Proceed(g, m.move, m.at)
  }

  /** Any interleaving of any number of reads with the scheduler, at any instants. */
  ghost function RunReads(g: Gateway, moves: seq<TimedMove>): (r: Gateway)
    requires GatewayInv(g)
    ensures GatewayInv(r) && g.until <= r.until && r.config == g.config
    decreases |moves|
  {
    hide GatewayInv, Moved;
    if moves == [] then g else RunReads(Moved(g, moves[0]), moves[1..])
  }

  lemma OpenInv(config: Config, limits: PerClass<nat>)
    requires ConfigOk(config)
    ensures GatewayInv(Open(config, limits))
  {
    InitialInv(limits);
  }

  ghost function Opened(config: Config, limits: PerClass<nat>): (g: Gateway)
    requires ConfigOk(config)
    ensures GatewayInv(g) && g.config == config
  {
    OpenInv(config, limits);
    Open(config, limits)
  }

  /** The shared backoff never shrinks, whatever has run and whatever runs next. */
  lemma BackoffNeverShrinks(config: Config, limits: PerClass<nat>, moves: seq<TimedMove>, more: seq<TimedMove>)
    requires ConfigOk(config)
    ensures var g := RunReads(Opened(config, limits), moves);
            g.until <= RunReads(g, more).until
  {
    hide GatewayInv;
  }

  /** The backoff is never more than a minute ahead, no build begins inside a noted delay, and
      every announced Retry-After is read back unchanged by the client. */
  lemma NotesAreHonoured(config: Config, limits: PerClass<nat>, moves: seq<TimedMove>)
    requires ConfigOk(config)
    ensures var g := RunReads(Opened(config, limits), moves);
            && g.until - g.sched.clock <= 60.0
            && (forall i, j :: 0 <= i < j < |g.log| && g.log[i].Noted? && g.log[j].BuildBegan? ==>
                  g.log[i].at + 1.0 <= g.log[i].at + g.log[i].delay <= g.log[j].at)
            && (forall i :: 0 <= i < |g.log| && g.log[i].Noted? ==> g.log[i].at + g.log[i].delay <= g.until)
            && (forall i :: 0 <= i < |g.clients| ==> HintReadsBack(g.clients[i]))
  {
    hide Inv, RunReads, Opened;
    var g := RunReads(Opened(config, limits), moves);
    forall i | 0 <= i < |g.clients|
      ensures HintReadsBack(g.clients[i])
    {
      assert ReadOk(g.config, g.sched.jobs, g.sched.clock, g.clients[i]);
      var progress := g.clients[i].progress;
      if progress.Answered? && progress.response.RateLimitedReply? && progress.response.retryAfter.Some? {
        RetryAfterRoundTrip(progress.response.retryAfter.value as real);
      }
    }
  }

  /** A Retry-After, if announced, is a whole number in 1..60 and survives the wire. */
  predicate HintReadsBack(read: Read) {
    read.progress.Answered? && read.progress.response.RateLimitedReply? && read.progress.response.retryAfter.Some? ==>
      var seconds := read.progress.response.retryAfter.value;
      1 <= seconds <= 60 && SdkRetryAfter(Decimal(seconds)) == Some(seconds)
  }

  /** A read makes at most two attempts. The second exists only if the first failed to
      connect, is finished and has given its allocation back, at least a tenth of a second
      earlier; and it can neither wait nor run beyond the first attempt's own deadline. */
  lemma OneRetryInsideTheBudget(config: Config, limits: PerClass<nat>, moves: seq<TimedMove>, i: nat)
    requires ConfigOk(config)
    ensures var g := RunReads(Opened(config, limits), moves);
            i < |g.clients| ==>
              var read := g.clients[i];
              && |read.attempts| <= 2
              && (forall k :: 0 <= k < |read.attempts| ==> read.attempts[k] < |g.sched.jobs|)
              && (|read.attempts| == 2 ==>
                    var first, second := g.sched.jobs[read.attempts[0]], g.sched.jobs[read.attempts[1]];
                    && read.retryable
                    && FailedConnecting(first)
                    && first.op.endedAt + RETRY_PAUSE <= second.enqueuedAt
                    && RetryBudgets(config, read, second)
                    && second.queueDeadline <= read.arrivedAt + config.upstreamTimeout
                    && (second.budget.Some? ==> second.budget.value.deadline <= read.arrivedAt + config.upstreamTimeout))
  {
    hide Inv, RunReads, Opened;
    var g := RunReads(Opened(config, limits), moves);
    assert i < |g.clients| ==> ReadOk(g.config, g.sched.jobs, g.sched.clock, g.clients[i]);
    if i < |g.clients| && |g.clients[i].attempts| == 2 {
      BudgetRecord(g.sched, g.clients[i].attempts[1]);
    }
  }

  lemma BudgetRecord(s: State, id: nat)
    requires Inv(s) && id < |s.jobs|
    ensures BudgetOk(s.jobs[id], s.clock)
  {
    assert JobOk(s.jobs[id], InQueue(s, id), s.current == Some(id), s.clock);
  }
}
