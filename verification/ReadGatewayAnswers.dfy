/** What a read is answered, said on the record of the job that answered it. */
module ReadGatewayAnswers {
  import opened Common
  import opened Failures
  import opened DispatchBoard
  import opened SchedulerModel
  import opened SchedulerInvariant
  import opened SchedulerGuarantees
  import opened SchedulerEffects
  import opened ReadGateway
  import opened ReadGatewayGuarantees

  /** The job's own answer is a provider failure of this cause. */
  predicate Failed(job: Job, cause: Cause) {
    job.result.Own? && job.result.outcome.Raised? && job.result.outcome.failure.Unavailable?
    && job.result.outcome.failure.meta.cause == cause
  }

  /** Seconds a rate-limited failure asks for: its hint, but at least one. */
  predicate AsksFor(job: Job, hint: Option<int>)
    requires Failed(job, RateLimited)
  {
    var meta := job.result.outcome.failure.meta;
    && (hint.Some? <==> meta.retryAfter.Some?)
    && (hint.Some? ==>
          && hint.value >= 1 && meta.retryAfter.value <= hint.value as real
          && (hint.value as real - 1.0 < meta.retryAfter.value || hint.value == 1))
  }

  /** A first attempt that failed to connect has 1.1 seconds left for another one. */
  predicate MayRetry(read: Read, at: real) {
    |read.attempts| == 1 && read.retryable && read.deadline - at >= 1.1
  }

  /** The answer of a read whose client stayed, by its last job. */
  ghost predicate AnsweredBy(job: Job, read: Read)
    requires read.progress.Answered?
  {
    var response, at := read.progress.response, read.progress.at;
    && !job.result.Pending? && !job.started.NotStarted?
    && (forall value :: response == Body(value) <==> job.result == Own(Returned(value)))
    && (response == QueueTimeoutReply <==> job.started.StartTimedOut?)
    && (response == UpstreamTimeoutReply <==> job.result == UpstreamTimeout)
    && (response == MalformedReply <==> job.result == Own(Raised(Malformed)))
    && (response == UnavailableReply <==> Failed(job, OtherCause))
    && (response == Aborted <==> job.started.StartWithdrawn? || job.result == Own(OperationCancelled))
    // A rate limit is passed on with its hint.
    && (Failed(job, RateLimited) ==> response.RateLimitedReply? && AsksFor(job, response.retryAfter))
    // A failure to connect is final only if there was no time or no leave for another attempt.
    && (response == ConnectTimeoutReply ==> Failed(job, ConnectTimeout) && !MayRetry(read, at))
    && (Failed(job, ConnectTimeout) && response != ConnectTimeoutReply ==>
          |read.attempts| == 1 && read.retryable && (response == CapacityReply || (response.RateLimitedReply? && response.retryAfter.Some?)))
    && (response == CapacityReply ==> Failed(job, ConnectTimeout))
  }

  ghost predicate AnswerOk(jobs: seq<Job>, read: Read) {
    read.progress.Answered? && !read.left && read.attempts != [] ==>
      var id := read.attempts[|read.attempts| - 1];
      id < |jobs| && AnsweredBy(jobs[id], read)
  }

  ghost predicate AnswersOk(g: Gateway) {
    forall i :: 0 <= i < |g.clients| ==> AnswerOk(g.sched.jobs, g.clients[i])
  }

  lemma AnswerStays(s: State, r: State, read: Read)
    requires AllEvolve(s, r) && AnswerOk(s.jobs, read)
    ensures AnswerOk(r.jobs, read)
  {
    if read.progress.Answered? && !read.left && read.attempts != [] {
      var id := read.attempts[|read.attempts| - 1];
      SettledStays(s.jobs[id], r.jobs[id], read);
    }
  }

  lemma SettledStays(a: Job, b: Job, read: Read)
    requires Evolves(a, b) && read.progress.Answered? && AnsweredBy(a, read)
    ensures AnsweredBy(b, read)
  {
  }

  // ---------------------------------------------------------------------------------------
  // Where answers come from.
  // ---------------------------------------------------------------------------------------

  /** The record of a job whose answer is there. */
  lemma ReadyJob(s: State, id: nat)
    requires Inv(s) && id < |s.jobs| && Ready(s.jobs[id])
    ensures var job := s.jobs[id];
            && !job.result.Pending? && !job.started.NotStarted?
            && (job.result.Withdrawn? <==> job.started.StartTimedOut? || job.started.StartWithdrawn?)
  {
    assert JobOk(s.jobs[id], InQueue(s, id), s.current == Some(id), s.clock);
  }

  lemma HintAsks(meta: Metadata)
    ensures var hint := if meta.retryAfter.Some? then Some(Ceiling(DelayOf(meta))) else None;
            hint.Some? ==>
              && hint.value >= 1 && meta.retryAfter.value <= hint.value as real
              && (hint.value as real - 1.0 < meta.retryAfter.value || hint.value == 1)
  {
  }

  lemma ResumeAnswers(g: Gateway, read: Read, job: Job)
    requires !job.result.Pending? && !job.started.NotStarted?
    requires job.result.Withdrawn? <==> job.started.StartTimedOut? || job.started.StartWithdrawn?
    requires |read.attempts| == 1 || |read.attempts| == 2
    ensures var r := Resume(g, read, job).1;
            && r == read.(progress := r.progress) && !r.progress.Waiting?
            && (r.progress.Answered? ==> r.progress.at == g.sched.clock && AnsweredBy(job, r))
            && (r.progress.Sleeping? <==> Failed(job, ConnectTimeout) && MayRetry(read, g.sched.clock))
            && (r.progress.Sleeping? ==> r.progress.wakeAt == g.sched.clock + 0.1)
  {
    hide DelayOf, Note;
    match job.result
    case Own(Raised(Unavailable(meta))) => HintAsks(meta);
    case _ =>
  }

  lemma SleeperFailed(g: Gateway, i: nat)
    requires GatewayInv(g) && i < |g.clients| && g.clients[i].progress.Sleeping?
    ensures var read := g.clients[i];
            && |read.attempts| == 1 && read.retryable && read.attempts[0] < |g.sched.jobs|
            && Failed(g.sched.jobs[read.attempts[0]], ConnectTimeout)
            && !g.sched.jobs[read.attempts[0]].started.NotStarted?
            && !g.sched.jobs[read.attempts[0]].result.Pending?
            && !g.sched.jobs[read.attempts[0]].started.StartTimedOut?
            && !g.sched.jobs[read.attempts[0]].started.StartWithdrawn?
  {
    assert ReadOk(g.config, g.sched.jobs, g.sched.clock, g.clients[i]);
    var id := g.clients[i].attempts[0];
    assert JobOk(g.sched.jobs[id], InQueue(g.sched, id), g.sched.current == Some(id), g.sched.clock);
    hide Inv, CooldownOk;
  }

  /** A refused replacement attempt leaves the first one's failure to explain the answer. */
  lemma RefusedRetryAnswers(job: Job, read: Read)
    requires Failed(job, ConnectTimeout) && !job.started.NotStarted? && !job.started.StartTimedOut? && !job.started.StartWithdrawn?
    requires |read.attempts| == 1 && read.retryable && read.progress.Answered?
    requires read.progress.response == CapacityReply
             || (read.progress.response.RateLimitedReply? && read.progress.response.retryAfter.Some?)
    ensures AnsweredBy(job, read)
  {
  }

  // ---------------------------------------------------------------------------------------
  // The scheduler below only moves forward.
  // ---------------------------------------------------------------------------------------

  lemma AttemptEvolves(g: Gateway, read: Read)
    requires Inv(g.sched)
    ensures Refs(g.sched) && AllEvolve(g.sched, Attempt(g, read).0.sched) && Recorded(g.sched, Attempt(g, read).0.sched)
  {
    hide Inv, Submit, AllEvolve, Recorded, Refs;
    InvRefs(g.sched);
    NothingMoves(g.sched);
    SubmitEvolves(g.sched, AttemptRequest(g, read));
    SubmitRecorded(g.sched, AttemptRequest(g, read));
  }

  lemma NothingMoves(s: State)
    ensures AllEvolve(s, s) && Recorded(s, s)
  {
  }

  lemma BeginEvolves(g: Gateway)
    requires Inv(g.sched)
    ensures AllEvolve(g.sched, BuildBegins(g).sched) && Recorded(g.sched, BuildBegins(g).sched)
  {
    hide Inv, AllEvolve, Recorded, OperationBegins, OperationEnds;
    NothingMoves(g.sched);
    var s := OperationBegins(g.sched);
    RunningEvolves(g.sched, OperationCancelled);
    RunningRecorded(g.sched, OperationCancelled);
    OperationBeginsKeepsInv(g.sched);
    if Cooldown(g) > 0.0 {
      var meta: Metadata := Metadata(RateLimited, Some(Min(MAX_HINT, Cooldown(g))));
      var own := Raised(Unavailable(meta));
      RunningEvolves(s, own);
      RunningRecorded(s, own);
      Evolution(g.sched, s, OperationEnds(s, own));
      RecordedTrans(g.sched, s, OperationEnds(s, own));
    }
  }

  lemma ActEvolves(g: Gateway, move: Move)
    requires GatewayInv(g)
    ensures Refs(g.sched) && AllEvolve(g.sched, Act(g, move).sched) && Recorded(g.sched, Act(g, move).sched)
  {
    hide CooldownOk, ReadsOk, Inv, AllEvolve, Recorded, Attempt, BuildBegins, Resume, Note, Refs, QueueTimer, CallerCancel, RunStarts, LifecycleWakes, Shutdown, OperationEnds, Ready;
    var s := g.sched;
    InvRefs(s);
    NothingMoves(s);
    match move
    case Arrives(priority, retryable) =>
      AttemptEvolves(g, Read(priority, retryable, s.clock, s.clock + g.config.upstreamTimeout, [], Sleeping(s.clock), false));
    case Retries(i) => if i < |g.clients| { AttemptEvolves(g, g.clients[i]); }
    case Resumes(i) =>
      if i < |g.clients| && g.clients[i].progress.Waiting? && g.clients[i].progress.id < |s.jobs| {
        ResumeKeepsScheduler(g, g.clients[i], s.jobs[g.clients[i].progress.id]);
      }
    case Leaves(i) =>
      if i < |g.clients| && g.clients[i].progress.Waiting? {
        LeaversEvolve(s, g.clients[i].progress.id);
        LeaversRecorded(s, g.clients[i].progress.id);
      }
    case QueueDeadlinePasses(id) =>
      LeaversEvolve(s, id);
      LeaversRecorded(s, id);
    case TaskStarts =>
      RunningEvolves(s, OperationCancelled);
      RunningRecorded(s, OperationCancelled);
    case TaskWakes =>
      LifecycleEvolves(s);
      WakingRecorded(s);
    case Stops =>
      ShutdownEvolves(s);
      ShutdownRecorded(s);
    case BuildStarts => BeginEvolves(g);
    case BuildStops(own) =>
      RunningEvolves(s, own);
      RunningRecorded(s, own);
      EndingKeepsScheduler(g, own);
    case JoinedReadFails(priority, meta) => NoteKeepsScheduler(g, meta);
  }

  lemma ResumeKeepsScheduler(g: Gateway, read: Read, job: Job)
    ensures Resume(g, read, job).0.sched == g.sched && Resume(g, read, job).0.clients == g.clients
  {
    hide DelayOf;
  }

  lemma EndingKeepsScheduler(g: Gateway, own: Outcome)
    ensures BuildEnds(g, own).sched == OperationEnds(g.sched, own) && BuildEnds(g, own).clients == g.clients
  {
    hide DelayOf, OperationEnds;
  }

  lemma NoteKeepsScheduler(g: Gateway, meta: Metadata)
    ensures Note(g, meta).sched == g.sched && Note(g, meta).clients == g.clients
  {
  }

  // ---------------------------------------------------------------------------------------
  // Every run.
  // ---------------------------------------------------------------------------------------

  ghost predicate AnswersInv(g: Gateway) {
    GatewayInv(g) && StopsAgree(g.sched) && AnswersOk(g)
  }

  /** A client of the next state: as it was, or answered soundly, or not answered. */
  lemma NewAnswers(g: Gateway, move: Move, i: nat)
    requires AnswersInv(g) && Refs(g.sched) && i < |Act(g, move).clients|
    ensures AnswerOk(Act(g, move).sched.jobs, Act(g, move).clients[i])
  {
    hide GatewayInv, AnswersOk, AnsweredBy, AllEvolve, Recorded, StopsAgree, Inv, Refs, Submit, CallerCancel, QueueTimer, RunStarts, LifecycleWakes, Shutdown, BuildBegins, BuildEnds, Note, Resume, Ready, Attempt;
    ActEvolves(g, move);
    ClientsAreKept(g, move);
    var r := Act(g, move);
    if i < |g.clients| && r.clients[i] == g.clients[i] {
      OldAnswer(g, i);
      AnswerStays(g.sched, r.sched, g.clients[i]);
    } else if move == Resumes(i) {
      ResumedAnswer(g, i);
    } else if move == Retries(i) {
      RetriedAnswer(g, i);
    }
  }

  lemma OldAnswer(g: Gateway, i: nat)
    requires AnswersOk(g) && i < |g.clients|
    ensures AnswerOk(g.sched.jobs, g.clients[i])
  {
  }

  /** Only its own move changes a client; a left one is marked, and a new one has no attempts
      behind its answer. */
  lemma ClientsAreKept(g: Gateway, move: Move)
    requires Refs(g.sched)
    ensures var r := Act(g, move);
            && |g.clients| <= |r.clients|
            && (forall i :: 0 <= i < |g.clients| ==>
                  r.clients[i] == g.clients[i] || move == Resumes(i) || move == Retries(i) || (move == Leaves(i) && r.clients[i].left))
            && (forall i :: |g.clients| <= i < |r.clients| ==> r.clients[i].progress.Answered? ==> r.clients[i].attempts == [])
  {
    hide Refs, Submit, CallerCancel, QueueTimer, RunStarts, LifecycleWakes, Shutdown, BuildBegins, BuildEnds, Note, Resume, Ready, Attempt;
    match move
    case Arrives(priority, retryable) =>
      AttemptShape(g, Read(priority, retryable, g.sched.clock, g.sched.clock + g.config.upstreamTimeout, [], Sleeping(g.sched.clock), false));
    case Retries(i) => if i < |g.clients| { AttemptShape(g, g.clients[i]); }
    case Resumes(i) =>
      if i < |g.clients| && g.clients[i].progress.Waiting? && g.clients[i].progress.id < |g.sched.jobs| {
        ResumeKeepsScheduler(g, g.clients[i], g.sched.jobs[g.clients[i].progress.id]);
      }
    case BuildStarts => BeginKeepsClients(g);
    case BuildStops(own) => EndingKeepsScheduler(g, own);
    case JoinedReadFails(priority, meta) => NoteKeepsScheduler(g, meta);
    case _ =>
  }

  lemma BeginKeepsClients(g: Gateway)
    ensures BuildBegins(g).clients == g.clients
  {
    hide OperationBegins, OperationEnds;
  }

  /** One round of the attempt loop: it waits on the next job, or is told to stay away, or that
      there is no room. */
  lemma AttemptShape(g: Gateway, read: Read)
    requires Refs(g.sched)
    ensures var (h, r) := Attempt(g, read);
            && h.clients == g.clients && r == read.(attempts := r.attempts, progress := r.progress)
            && (r.progress.Answered? ==> r.attempts == read.attempts && r.progress.at == g.sched.clock)
            && !r.progress.Sleeping?
  {
    hide Submit, Refs;
  }

  lemma ResumedAnswer(g: Gateway, i: nat)
    requires GatewayInv(g) && AnswersOk(g) && Refs(g.sched) && i < |g.clients|
    ensures |Act(g, Resumes(i)).clients| == |g.clients|
    ensures AnswerOk(Act(g, Resumes(i)).sched.jobs, Act(g, Resumes(i)).clients[i])
  {
    hide CooldownOk, Inv, AnsweredBy, Refs, Ready, Resume, Note;
    if g.clients[i].progress.Waiting? && g.clients[i].progress.id < |g.sched.jobs|
       && Ready(g.sched.jobs[g.clients[i].progress.id]) {
      var read, job := g.clients[i], g.sched.jobs[g.clients[i].progress.id];
      assert ReadOk(g.config, g.sched.jobs, g.sched.clock, read);
      ReadyJob(g.sched, read.progress.id);
      ResumeKeepsScheduler(g, read, job);
      ResumeAnswers(g, read, job);
    } else {
      OldAnswer(g, i);
    }
  }

  lemma RetriedAnswer(g: Gateway, i: nat)
    requires GatewayInv(g) && AnswersOk(g) && Refs(g.sched) && i < |g.clients|
    ensures |Act(g, Retries(i)).clients| == |g.clients|
    ensures AnswerOk(Act(g, Retries(i)).sched.jobs, Act(g, Retries(i)).clients[i])
  {
    hide GatewayInv, AnsweredBy, Refs, Submit, AllEvolve, Attempt;
    if g.clients[i].progress.Sleeping? && g.clients[i].progress.wakeAt <= g.sched.clock {
      var read := g.clients[i];
      SleeperFailed(g, i);
      InvOfGateway(g);
      AttemptEvolves(g, read);
      AttemptShape(g, read);
      var (h, r) := Attempt(g, read);
      if r.progress.Answered? {
        RefusalResponse(g, read);
        RefusedRetryAnswers(g.sched.jobs[read.attempts[0]], r);
        SingleStays(g.sched, h.sched, read.attempts[0], r);
      }
    } else {
      OldAnswer(g, i);
    }
  }

  lemma InvOfGateway(g: Gateway)
    requires GatewayInv(g)
    ensures Inv(g.sched)
  {
    hide Inv;
  }

  lemma SingleStays(s: State, r: State, id: nat, read: Read)
    requires AllEvolve(s, r) && id < |s.jobs| && read.progress.Answered? && AnsweredBy(s.jobs[id], read)
    ensures id < |r.jobs| && AnsweredBy(r.jobs[id], read)
  {
    SettledStays(s.jobs[id], r.jobs[id], read);
  }

  lemma RefusalResponse(g: Gateway, read: Read)
    requires Refs(g.sched) && Attempt(g, read).1.progress.Answered?
    requires GatewayInv(g) && read.attempts != []
    ensures var response := Attempt(g, read).1.progress.response;
            response == CapacityReply || (response.RateLimitedReply? && response.retryAfter.Some?)
  {
    hide CooldownOk, Inv, ReadsOk, Refs, Dispatch;
  }

  lemma ActKeepsAnswers(g: Gateway, move: Move)
    requires AnswersInv(g)
    ensures Refs(g.sched) && AnswersInv(Act(g, move))
  {
    hide GatewayInv, AnswerOk, Act, Inv, Refs, AllEvolve, Recorded, StopsAgree;
    ActEvolves(g, move);
    ActKeeps(g, move);
    RecordedKeepsStops(g.sched, Act(g, move).sched);
    forall i | 0 <= i < |Act(g, move).clients|
      ensures AnswerOk(Act(g, move).sched.jobs, Act(g, move).clients[i])
    {
      NewAnswers(g, move, i);
    }
  }

  lemma MovedKeepsAnswers(g: Gateway, m: TimedMove)
    requires AnswersInv(g)
    ensures AnswersInv(Moved(g, m))
  {
    hide GatewayInv, AnswerOk, Act, Refs, Inv;
    InvOfGateway(g);
    InvRefs(g.sched);
    if g.sched.clock <= m.at {
      TimePasses(g, m.at);
      assert AnswersInv(At(g, m.at));
      ActKeepsAnswers(At(g, m.at), m.move);
      assert Moved(g, m) == Act(At(g, m.at), m.move);
    } else {
      assert Moved(g, m) == g;
    }
  }

  lemma {:induction false} RunKeepsAnswers(g: Gateway, moves: seq<TimedMove>)
    requires AnswersInv(g)
    ensures AnswersInv(RunReads(g, moves))
    decreases |moves|
  {
    hide GatewayInv, Moved, AnswersOk, StopsAgree;
    if moves != [] {
      MovedKeepsAnswers(g, moves[0]);
      RunKeepsAnswers(Moved(g, moves[0]), moves[1..]);
    }
  }

  lemma OpenKeepsAnswers(config: Config, limits: PerClass<nat>)
    requires ConfigOk(config)
    ensures AnswersInv(Opened(config, limits))
  {
    hide GatewayInv;
    var g := Opened(config, limits);
    assert g == Open(config, limits);
  }

  /** In every run an answered read either had its client leave, or never got as far as a job,
      or is answered by its last job: the value the provider returned, the very failure it
      raised, the queue timeout or the upstream timeout of exactly that job; a first attempt that
      failed to connect is answered so only when there was no leave or no time to try again. */
  lemma AnswersSayWhatHappened(config: Config, limits: PerClass<nat>, moves: seq<TimedMove>)
    requires ConfigOk(config)
    ensures AnswersOk(RunReads(Opened(config, limits), moves))
  {
    hide GatewayInv, RunReads, Opened, AnswersOk, StopsAgree;
    OpenKeepsAnswers(config, limits);
    RunKeepsAnswers(Opened(config, limits), moves);
  }

  // ---------------------------------------------------------------------------------------
  // Attempts and replies that involve no job.
  // ---------------------------------------------------------------------------------------

  /** One round of the attempt loop on a gateway whose admission agrees with its history: during
      a cooldown the read is told the seconds left, rounded up, and nothing is submitted; then,
      with no room or after a stop, that there is no capacity; else it waits on a new job. */
  ghost predicate AttemptFollowsRoom(g: Gateway, read: Read, h: Gateway, r: Read) {
    var p, now := read.priority, g.sched.clock;
    && r == read.(attempts := r.attempts, progress := r.progress)
    && (g.until > now ==>
          && h == g && r.attempts == read.attempts && r.progress.Answered? && r.progress.at == now
          && r.progress.response.RateLimitedReply? && r.progress.response.retryAfter.Some?
          && r.progress.response.retryAfter.value as real - 1.0 < g.until - now <= r.progress.response.retryAfter.value as real)
    && (g.until <= now && (HasStopped(g.sched.trace) || |Unfinished(g.sched.jobs, p)| >= g.sched.limits.At(p)) ==>
          h == g && r.attempts == read.attempts && r.progress == Answered(CapacityReply, now))
    && (g.until <= now && !HasStopped(g.sched.trace) && |Unfinished(g.sched.jobs, p)| < g.sched.limits.At(p) ==>
          && r.attempts == read.attempts + [|g.sched.jobs|] && r.progress == Waiting(|g.sched.jobs|)
          && |h.sched.jobs| == |g.sched.jobs| + 1)
  }

  lemma AttemptIsRight(g: Gateway, read: Read)
    requires GatewayInv(g) && StopsAgree(g.sched)
    ensures Refs(g.sched) && var (h, r) := Attempt(g, read); AttemptFollowsRoom(g, read, h, r)
  {
    hide CooldownOk, ReadsOk, Inv, Refs, Submit, StopsAgree, HasStopped, Unfinished;
    InvRefs(g.sched);
    var request := AttemptRequest(g, read);
    WellFormedAttempt(g, read);
    SubmissionIsAnsweredRightly(g.sched, request);
    SubmissionRecord(g.sched, request);
  }

  lemma WellFormedAttempt(g: Gateway, read: Read)
    requires ConfigOk(g.config)
    ensures WellFormedRequest(AttemptRequest(g, read)) && AttemptRequest(g, read).priority == read.priority
  {
  }

  /** A new read arrives now, with the upstream budget before it, and makes its first attempt. */
  lemma ArrivalEffect(g: Gateway, priority: Priority, retryable: bool)
    requires GatewayInv(g) && StopsAgree(g.sched)
    ensures Refs(g.sched)
    ensures var r := Act(g, Arrives(priority, retryable));
            && |r.clients| == |g.clients| + 1 && r.clients[..|g.clients|] == g.clients
            && var now := g.sched.clock;
            && var read := Read(priority, retryable, now, now + g.config.upstreamTimeout, [], Sleeping(now), false);
            && AttemptFollowsRoom(g, read, r.(clients := g.clients), r.clients[|g.clients|])
  {
    hide GatewayInv, StopsAgree, Attempt, Refs, AttemptFollowsRoom;
    var read := Read(priority, retryable, g.sched.clock, g.sched.clock + g.config.upstreamTimeout, [], Sleeping(g.sched.clock), false);
    AttemptIsRight(g, read);
    AttemptShape(g, read);
    var (h, c) := Attempt(g, read);
    assert Act(g, Arrives(priority, retryable)).(clients := g.clients) == h;
  }

  /** A read that joined another's fetch is told that fetch's failure, and a rate limit is noted. */
  lemma JoinedEffect(g: Gateway, priority: Priority, meta: Metadata)
    requires Refs(g.sched)
    ensures var r := Act(g, JoinedReadFails(priority, meta));
            && r.sched == g.sched && |r.clients| == |g.clients| + 1 && r.clients[..|g.clients|] == g.clients
            && var read := r.clients[|g.clients|];
            && read.priority == priority && read.attempts == [] && read.progress.Answered? && read.progress.at == g.sched.clock
            && match meta.cause
               case ConnectTimeout => read.progress.response == ConnectTimeoutReply && r.until == g.until && r.log == g.log
               case OtherCause => read.progress.response == UnavailableReply && r.until == g.until && r.log == g.log
               case RateLimited =>
                 && read.progress.response.RateLimitedReply?
                 && (read.progress.response.retryAfter.Some? <==> meta.retryAfter.Some?)
                 && r.until >= g.sched.clock + 1.0
                 && (meta.retryAfter.Some? ==> r.until >= g.sched.clock + meta.retryAfter.value)
  {
    hide Refs;
  }
  // ---------------------------------------------------------------------------------------
  // Notes and builds.
  // ---------------------------------------------------------------------------------------

  /** `r` has noted this rate limit now: the backoff reaches its delay, the hint but at least a
      second, from now, and no further than it did or must. */
  ghost predicate NotedNow(g: Gateway, r: Gateway, meta: Metadata) {
    var delay := if meta.retryAfter.Some? && meta.retryAfter.value > 1.0 then meta.retryAfter.value else 1.0;
    && r.log == g.log + [Noted(g.sched.clock, delay)]
    && r.until == if g.until > g.sched.clock + delay then g.until else g.sched.clock + delay
  }

  ghost predicate NothingNoted(g: Gateway, r: Gateway) {
    r.until == g.until && r.log == g.log
  }

  function CurrentOp(g: Gateway): Option<Operation> {
    if HasCurrent(g.sched) then Some(g.sched.jobs[g.sched.current.value].op) else None
  }

  predicate IsLimit(own: Outcome) {
    own.Raised? && own.failure.Unavailable? && own.failure.meta.cause.RateLimited?
  }

  /** A running operation that ends in a rate limit notes it; no other end notes anything. */
  lemma EndEffect(g: Gateway, own: Outcome)
    requires Refs(g.sched)
    ensures var r := Act(g, BuildStops(own));
            if CurrentOp(g).Some? && CurrentOp(g).value.Alive? && IsLimit(own)
            then NotedNow(g, r, own.failure.meta)
            else NothingNoted(g, r)
  {
    hide Refs;
    if CurrentOp(g).Some? && CurrentOp(g).value.Alive? {
      assert OperationEnds(g.sched, own).trace != g.sched.trace;
    }
  }

  /** Outside a cooldown the guarded operation begins and is a provider read; during one it ends
      at once with a rate limit whose hint is what is left of the cooldown. */
  lemma BeginEffect(g: Gateway)
    requires Refs(g.sched)
    ensures var r := Act(g, BuildStarts);
            if HasCurrent(g.sched) && g.sched.jobs[g.sched.current.value].budget.Some? && CurrentOp(g).value.Unborn? then
              var id, now := g.sched.current.value, g.sched.clock;
              && id < |r.sched.jobs| && r.until == g.until
              && (g.until <= now ==> r.sched.jobs[id].op == Alive(now) && r.log == g.log + [BuildBegan(id, now)])
              && (g.until > now ==>
                    && r.log == g.log && r.sched.jobs[id].op.Over? && r.sched.jobs[id].op.endedAt == now
                    && IsLimit(r.sched.jobs[id].op.own)
                    && r.sched.jobs[id].op.own.failure.meta.retryAfter
                       == Some(if g.until - now < 60.0 then g.until - now else 60.0))
            else r == g
  {
    hide Refs;
    if HasCurrent(g.sched) && g.sched.jobs[g.sched.current.value].budget.Some? && CurrentOp(g).value.Unborn? {
      assert OperationBegins(g.sched).trace != g.sched.trace;
    }
  }

  /** Apart from those two moves a note is made exactly when a read hears of a rate limit, from
      its own job or from a fetch it joined. */
  lemma OnlyLimitsAreNoted(g: Gateway, move: Move)
    requires Refs(g.sched) && !move.BuildStarts? && !move.BuildStops?
    ensures var r := Act(g, move);
            match move
            case Resumes(i) =>
              if i < |g.clients| && g.clients[i].progress.Waiting? && g.clients[i].progress.id < |g.sched.jobs|
                 && HearsOfLimit(g.sched.jobs[g.clients[i].progress.id])
              then NotedNow(g, r, g.sched.jobs[g.clients[i].progress.id].result.outcome.failure.meta)
              else NothingNoted(g, r)
            case JoinedReadFails(_, meta) => if meta.cause.RateLimited? then NotedNow(g, r, meta) else NothingNoted(g, r)
            case _ => NothingNoted(g, r)
  {
    hide Refs, Submit, CallerCancel, QueueTimer, RunStarts, LifecycleWakes, Shutdown;
  }

  predicate HearsOfLimit(job: Job) {
    !job.started.StartTimedOut? && !job.started.StartWithdrawn? && Failed(job, RateLimited)
  }
}
