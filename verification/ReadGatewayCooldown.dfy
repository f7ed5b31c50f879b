/** The cooldown as providers and clients see it: no provider read begins within the delay that
    an earlier one's rate limit asked for, nor within the delay a client was told. */
module ReadGatewayCooldown {
  import opened Common
  import opened Failures
  import opened DispatchBoard
  import opened SchedulerModel
  import opened SchedulerInvariant
  import opened SchedulerGuarantees
  import opened ReadGateway
  import opened ReadGatewayGuarantees

  /** The rate limit an operation ended in, if it did. */
  function LimitOf(op: Operation): Option<Metadata> {
    match op
    case Over(_, Raised(Unavailable(meta))) => if meta.cause.RateLimited? then Some(meta) else None
    case _ => None
  }

  // ---------------------------------------------------------------------------------------
  // Who changes operations: nobody but their own beginning and end.
  // ---------------------------------------------------------------------------------------

  ghost predicate OpsKept(s: State, r: State) {
    && |s.jobs| <= |r.jobs|
    && (forall id :: 0 <= id < |s.jobs| ==> r.jobs[id].op == s.jobs[id].op)
    && (forall id :: |s.jobs| <= id < |r.jobs| ==> r.jobs[id].op.Unborn?)
  }

  lemma OpsKeptTrans(s: State, t: State, r: State)
    requires OpsKept(s, t) && OpsKept(t, r)
    ensures OpsKept(s, r)
  {
  }

  lemma {:induction false} DispatchKeepsOps(s: State)
    requires Refs(s)
    ensures OpsKept(s, Dispatch(s))
    decreases |s.queues.first| + |s.queues.second|
  {
    if !s.workerActive && NextInLine(s).Some? {
      var id := NextInLine(s).value;
      NextInLineWaits(s);
      if s.jobs[id].queueDeadline <= s.clock {
        ReleaseKeepsRefs(s, id);
        DispatchKeepsOps(ExpireQueued(s, id));
      }
    }
  }

  lemma {:induction false} RemoveAllKeepsOps(s: State, ids: seq<nat>)
    ensures OpsKept(s, RemoveAll(s, ids))
    decreases |ids|
  {
    if ids != [] && InQueue(s, ids[0]) {
      RemoveAllKeepsOps(RemoveQueued(s, ids[0]), ids[1..]);
    }
  }

  lemma SubmitKeepsOps(s: State, request: Request)
    requires Refs(s)
    ensures OpsKept(s, Submit(s, request).0)
  {
    hide Dispatch, Refs;
    if Refusal(s, request).None? {
      AdmitKeepsRefs(s, NewJob(s, request));
      DispatchKeepsOps(Admit(s, NewJob(s, request)));
    }
  }

  lemma CallersKeepOps(s: State, id: nat)
    ensures OpsKept(s, QueueTimer(s, id)) && OpsKept(s, CallerCancel(s, id))
  {
    hide Without;
  }

  lemma WakingKeepsOps(s: State)
    requires Inv(s)
    ensures Refs(s) && OpsKept(s, LifecycleWakes(s))
  {
    hide Dispatch, Mirrors, JobsOk, Refs;
    CoreRefs(s);
    if HasCurrent(s) && s.jobs[s.current.value].budget.Some? && s.jobs[s.current.value].op.Over? {
      var v := Vacate(WithCurrent(s, SettledJob(s.jobs[s.current.value])));
      VacateKeepsCore(s);
      CoreRefs(v);
      DispatchKeepsOps(v);
    }
  }

  lemma StoppingKeepsOps(s: State)
    ensures OpsKept(s, Shutdown(s))
  {
    hide RemoveAll;
    RemoveAllKeepsOps(s.(accepting := false), s.queues.first + s.queues.second);
  }

  /** A move that begins or ends no operation: operations stay, and the log gains at most a note. */
  ghost predicate Quiet(g: Gateway, r: Gateway) {
    && OpsKept(g.sched, r.sched)
    && (r.log == g.log || exists delay :: r.log == g.log + [Noted(g.sched.clock, delay)])
  }

  lemma NoteIsQuiet(g: Gateway, meta: Metadata)
    ensures Quiet(g, Note(g, meta))
  {
    assert Note(g, meta).log == g.log + [Noted(g.sched.clock, DelayOf(meta))];
  }

  lemma AttemptIsQuiet(g: Gateway, read: Read)
    requires Refs(g.sched)
    ensures Quiet(g, Attempt(g, read).0)
  {
    hide Submit, Refs;
    SubmitKeepsOps(g.sched, AttemptRequest(g, read));
  }

  lemma ResumeIsQuiet(g: Gateway, read: Read, job: Job)
    ensures Quiet(g, Resume(g, read, job).0)
  {
    hide Note, Quiet;
    QuietItself(g);
    match job.result
    case Own(Raised(Unavailable(meta))) => NoteIsQuiet(g, meta);
    case _ =>
  }

  lemma QuietItself(g: Gateway)
    ensures Quiet(g, g)
  {
  }

  lemma MostMovesAreQuiet(g: Gateway, move: Move)
    requires GatewayInv(g) && !move.BuildStarts? && !move.BuildStops?
    ensures Refs(g.sched) && Quiet(g, Act(g, move))
  {
    hide GatewayInv, OpsKept, Inv, Attempt, Resume, Submit, Refs, QueueTimer, CallerCancel, LifecycleWakes, Shutdown, Ready;
    InvOf(g);
    InvRefs(g.sched);
    OpsKeptItself(g.sched);
    match move
    case Arrives(priority, retryable) =>
      AttemptIsQuiet(g, Read(priority, retryable, g.sched.clock, g.sched.clock + g.config.upstreamTimeout, [], Sleeping(g.sched.clock), false));
    case Retries(i) => if i < |g.clients| { AttemptIsQuiet(g, g.clients[i]); }
    case Resumes(i) =>
      if i < |g.clients| && g.clients[i].progress.Waiting? && g.clients[i].progress.id < |g.sched.jobs| {
        ResumeIsQuiet(g, g.clients[i], g.sched.jobs[g.clients[i].progress.id]);
      }
    case Leaves(i) => if i < |g.clients| && g.clients[i].progress.Waiting? { CallersKeepOps(g.sched, g.clients[i].progress.id); }
    case QueueDeadlinePasses(id) => CallersKeepOps(g.sched, id);
    case TaskStarts => StartingKeepsOps(g.sched);
    case TaskWakes => WakingKeepsOps(g.sched);
    case Stops => StoppingKeepsOps(g.sched);
    case JoinedReadFails(priority, meta) => NoteIsQuiet(g, meta);
  }

  lemma InvOf(g: Gateway)
    requires GatewayInv(g)
    ensures Inv(g.sched)
  {
    hide Inv;
  }

  lemma OpsKeptItself(s: State)
    ensures OpsKept(s, s)
  {
  }

  lemma StartingKeepsOps(s: State)
    ensures OpsKept(s, RunStarts(s))
  {
  }

  // ---------------------------------------------------------------------------------------
  // Builds and what became of them.
  // ---------------------------------------------------------------------------------------

  predicate IsBuild(log: seq<CooldownEvent>, i: nat) {
    i < |log| && log[i].BuildBegan?
  }

  ghost predicate HasBuild(log: seq<CooldownEvent>, id: nat) {
    exists i: nat :: IsBuild(log, i) && log[i].id == id
  }

  /** An operation that runs, or ended in anything but a rate limit, was not refused by the
      guard: it is a provider read, and its beginning is in the log. */
  ghost predicate BuildLogged(log: seq<CooldownEvent>, id: nat, op: Operation) {
    op.Alive? || (op.Over? && LimitOf(op).None?) ==> HasBuild(log, id)
  }

  ghost predicate BuildsLogged(log: seq<CooldownEvent>, jobs: seq<Job>) {
    forall id :: 0 <= id < |jobs| ==> BuildLogged(log, id, jobs[id].op)
  }

  lemma BuildStays(log: seq<CooldownEvent>, more: seq<CooldownEvent>, id: nat)
    requires log <= more && HasBuild(log, id)
    ensures HasBuild(more, id)
  {
    var i: nat :| IsBuild(log, i) && log[i].id == id;
    assert IsBuild(more, i) && more[i] == log[i];
  }

  lemma OpsKeepLogged(log: seq<CooldownEvent>, s: State, more: seq<CooldownEvent>, r: State)
    requires BuildsLogged(log, s.jobs) && OpsKept(s, r) && log <= more
    ensures BuildsLogged(more, r.jobs)
  {
    hide HasBuild, LimitOf;
    forall id | 0 <= id < |r.jobs|
      ensures BuildLogged(more, id, r.jobs[id].op)
    {
      if id < |s.jobs| {
        assert BuildLogged(log, id, s.jobs[id].op);
        if HasBuild(log, id) {
          BuildStays(log, more, id);
        }
      }
    }
  }

  lemma BuildBeginsKeepsLogged(g: Gateway)
    requires BuildsLogged(g.log, g.sched.jobs)
    ensures BuildsLogged(BuildBegins(g).log, BuildBegins(g).sched.jobs)
  {
    hide HasBuild;
    var s, r := g.sched, BuildBegins(g);
    forall id | 0 <= id < |r.sched.jobs|
      ensures BuildLogged(r.log, id, r.sched.jobs[id].op)
    {
      assert BuildLogged(g.log, id, s.jobs[id].op);
      if HasBuild(g.log, id) {
        BuildStays(g.log, r.log, id);
      }
      if r.log != g.log && s.current == Some(id) {
        LastIsBuild(g.log, id, s.clock);
      }
    }
  }

  lemma LastIsBuild(log: seq<CooldownEvent>, id: nat, at: real)
    ensures HasBuild(log + [BuildBegan(id, at)], id)
  {
    assert IsBuild(log + [BuildBegan(id, at)], |log|);
  }

  lemma BuildEndsKeepsLogged(g: Gateway, own: Outcome)
    requires BuildsLogged(g.log, g.sched.jobs)
    ensures BuildsLogged(BuildEnds(g, own).log, BuildEnds(g, own).sched.jobs)
  {
    hide HasBuild;
    var s, r := g.sched, BuildEnds(g, own);
    forall id | 0 <= id < |r.sched.jobs|
      ensures BuildLogged(r.log, id, r.sched.jobs[id].op)
    {
      assert BuildLogged(g.log, id, s.jobs[id].op);
      if HasBuild(g.log, id) {
        BuildStays(g.log, r.log, id);
      }
    }
  }

  /** A note of this delay at this instant stands behind entry `i`, before any later build. */
  ghost predicate NotedAfter(log: seq<CooldownEvent>, i: nat, at: real, delay: real) {
    exists n :: i < n < |log| && log[n] == Noted(at, delay) && forall j :: i < j < n ==> !log[j].BuildBegan?
  }

  /** A begun build has a job whose operation began with it. If that operation has ended in a
      rate limit, the limit was noted there and then, before any later build. */
  ghost predicate BuildOk(log: seq<CooldownEvent>, jobs: seq<Job>, i: nat)
    requires i < |log| && log[i].BuildBegan?
  {
    && log[i].id < |jobs|
    && !jobs[log[i].id].op.Unborn?
    && (LimitOf(jobs[log[i].id].op).Some? ==>
          NotedAfter(log, i, jobs[log[i].id].op.endedAt, DelayOf(LimitOf(jobs[log[i].id].op).value)))
  }

  /** When a later build begins, an earlier one's operation is over. */
  ghost predicate SupersededOk(log: seq<CooldownEvent>, jobs: seq<Job>, i: nat, j: nat)
    requires i < j < |log| && log[i].BuildBegan? && log[j].BuildBegan?
  {
    log[i].id < |jobs| && jobs[log[i].id].op.Over?
  }

  ghost predicate BuildsOk(log: seq<CooldownEvent>, jobs: seq<Job>, clock: real) {
    && (forall i :: 0 <= i < |log| && log[i].BuildBegan? ==> BuildOk(log, jobs, i))
    && (forall i, j :: 0 <= i < j < |log| && log[i].BuildBegan? && log[j].BuildBegan? ==> SupersededOk(log, jobs, i, j))
    && (forall i :: 0 <= i < |log| && log[i].BuildBegan? ==> log[i].at <= clock)
  }

  lemma NotedStays(log: seq<CooldownEvent>, more: seq<CooldownEvent>, i: nat, at: real, delay: real)
    requires log <= more && NotedAfter(log, i, at, delay)
    ensures NotedAfter(more, i, at, delay)
  {
    var n :| i < n < |log| && log[n] == Noted(at, delay) && forall j :: i < j < n ==> !log[j].BuildBegan?;
    assert more[n] == log[n] && forall j :: i < j < n ==> more[j] == log[j];
  }

  /** Operations stay and the log only grows by a note: what was right of the builds still is. */
  lemma QuietKeepsBuilds(log: seq<CooldownEvent>, s: State, more: seq<CooldownEvent>, r: State)
    requires BuildsOk(log, s.jobs, s.clock) && OpsKept(s, r) && s.clock <= r.clock
    requires more == log || (|more| == |log| + 1 && log <= more && more[|log|].Noted?)
    ensures BuildsOk(more, r.jobs, r.clock)
  {
    hide NotedAfter;
    forall i | 0 <= i < |more| && more[i].BuildBegan?
      ensures BuildOk(more, r.jobs, i) && more[i].at <= r.clock
    {
      assert i < |log| && more[i] == log[i];
      assert BuildOk(log, s.jobs, i);
      var op := s.jobs[log[i].id].op;
      if LimitOf(op).Some? {
        NotedStays(log, more, i, op.endedAt, DelayOf(LimitOf(op).value));
      }
    }
    forall i, j | 0 <= i < j < |more| && more[i].BuildBegan? && more[j].BuildBegan?
      ensures SupersededOk(more, r.jobs, i, j)
    {
      assert SupersededOk(log, s.jobs, i, j);
    }
  }

  lemma NoLaterBuild(log: seq<CooldownEvent>, jobs: seq<Job>, clock: real, i: nat)
    requires BuildsOk(log, jobs, clock) && i < |log| && log[i].BuildBegan?
    requires log[i].id < |jobs| && !jobs[log[i].id].op.Over?
    ensures forall j :: i < j < |log| ==> !log[j].BuildBegan?
  {
    hide BuildOk;
    forall j | i < j < |log|
      ensures !log[j].BuildBegan?
    {
      assert log[j].BuildBegan? ==> SupersededOk(log, jobs, i, j);
    }
  }

  /** An operation that has begun and does not hold the slot is over. */
  lemma BegunElsewhereIsOver(s: State, id: nat)
    requires Inv(s) && id < |s.jobs| && !s.jobs[id].op.Unborn? && s.current != Some(id)
    ensures s.jobs[id].op.Over?
  {
    assert JobOk(s.jobs[id], InQueue(s, id), s.current == Some(id), s.clock);
  }

  lemma BuildBeginsKeepsBuilds(g: Gateway)
    requires Inv(g.sched) && BuildsOk(g.log, g.sched.jobs, g.sched.clock)
    ensures var r := BuildBegins(g);
            BuildsOk(r.log, r.sched.jobs, r.sched.clock)
  {
    hide NotedAfter;
    var s, r := g.sched, BuildBegins(g);
    if r != g {
      var id := s.current.value;
      assert s.jobs[id].op.Unborn?;
      forall i | 0 <= i < |g.log| && g.log[i].BuildBegan?
        ensures BuildOk(r.log, r.sched.jobs, i)
        ensures r.sched.jobs[g.log[i].id].op.Over?
      {
        assert BuildOk(g.log, s.jobs, i);
        BegunElsewhereIsOver(s, g.log[i].id);
        var op := s.jobs[g.log[i].id].op;
        if LimitOf(op).Some? {
          NotedStays(g.log, r.log, i, op.endedAt, DelayOf(LimitOf(op).value));
        }
      }
      forall i, j | 0 <= i < j < |r.log| && r.log[i].BuildBegan? && r.log[j].BuildBegan?
        ensures SupersededOk(r.log, r.sched.jobs, i, j)
      {
        assert i < |g.log| && r.log[i] == g.log[i];
      }
    }
  }

  lemma BuildEndsKeepsBuilds(g: Gateway, own: Outcome)
    requires Inv(g.sched) && BuildsOk(g.log, g.sched.jobs, g.sched.clock)
    ensures var r := BuildEnds(g, own);
            BuildsOk(r.log, r.sched.jobs, r.sched.clock)
  {
    hide NotedAfter;
    var s, r := g.sched, BuildEnds(g, own);
    if OperationEnds(s, own) != s {
      var id := s.current.value;
      assert g.log <= r.log;
      forall i | 0 <= i < |g.log| && g.log[i].BuildBegan?
        ensures BuildOk(r.log, r.sched.jobs, i)
      {
        assert BuildOk(g.log, s.jobs, i);
        if g.log[i].id == id {
          if LimitOf(r.sched.jobs[id].op).Some? {
            NoLaterBuild(g.log, s.jobs, s.clock, i);
            NotedNow(g.log, i, s.clock, DelayOf(own.failure.meta));
          }
        } else if LimitOf(s.jobs[g.log[i].id].op).Some? {
          var op := s.jobs[g.log[i].id].op;
          NotedStays(g.log, r.log, i, op.endedAt, DelayOf(LimitOf(op).value));
        }
      }
      forall i, j | 0 <= i < j < |r.log| && r.log[i].BuildBegan? && r.log[j].BuildBegan?
        ensures SupersededOk(r.log, r.sched.jobs, i, j)
      {
        assert SupersededOk(g.log, s.jobs, i, j);
      }
    }
  }

  lemma NotedNow(log: seq<CooldownEvent>, i: nat, at: real, delay: real)
    requires i < |log| && forall j :: i < j < |log| ==> !log[j].BuildBegan?
    ensures NotedAfter(log + [Noted(at, delay)], i, at, delay)
  {
    var more := log + [Noted(at, delay)];
    assert more[|log|] == Noted(at, delay) && forall j :: i < j < |log| ==> more[j] == log[j];
  }

  // ---------------------------------------------------------------------------------------
  // What clients were told.
  // ---------------------------------------------------------------------------------------

  /** Until when a rate-limit answer given at `at` keeps reads away: the announced seconds were
      rounded up, and an answer without a number stands for one second. */
  function PromisedUntil(response: Response, at: real): real {
    match response
    case RateLimitedReply(Some(n)) => at + n as real - 1.0
    case RateLimitedReply(None) => at + 1.0
    case _ => at
  }

  ghost predicate PromiseOk(g: Gateway, read: Read) {
    read.progress.Answered? && read.progress.response.RateLimitedReply? ==>
      var bound := PromisedUntil(read.progress.response, read.progress.at);
      && bound <= g.until
      && read.progress.at <= g.sched.clock
      && forall j :: 0 <= j < |g.log| && g.log[j].BuildBegan? && read.progress.at < g.log[j].at ==> bound <= g.log[j].at
  }

  ghost predicate PromisesOk(g: Gateway) {
    forall i :: 0 <= i < |g.clients| ==> PromiseOk(g, g.clients[i])
  }

  /** No build began after now. */
  ghost predicate LogPast(g: Gateway) {
    forall j :: 0 <= j < |g.log| && g.log[j].BuildBegan? ==> g.log[j].at <= g.sched.clock
  }

  /** `r` follows `g` at the same instant: the backoff did not shrink, and a build in `r` that is
      not in `g` began now, outside any cooldown. */
  ghost predicate Onward(g: Gateway, r: Gateway) {
    && r.sched.clock == g.sched.clock && g.until <= r.until
    && g.log <= r.log
    && forall j :: |g.log| <= j < |r.log| && r.log[j].BuildBegan? ==> r.log[j].at == g.sched.clock && g.until <= g.sched.clock
  }

  lemma PromiseStays(g: Gateway, r: Gateway, read: Read)
    requires Onward(g, r) && PromiseOk(g, read)
    ensures PromiseOk(r, read)
  {
    if read.progress.Answered? && read.progress.response.RateLimitedReply? {
      forall j | 0 <= j < |r.log| && r.log[j].BuildBegan? && read.progress.at < r.log[j].at
        ensures PromisedUntil(read.progress.response, read.progress.at) <= r.log[j].at
      {
        if j < |g.log| {
          assert r.log[j] == g.log[j];
        }
      }
    }
  }

  /** An answer given now, with the backoff reaching as far as it promises. */
  lemma PromiseNow(g: Gateway, read: Read)
    requires LogPast(g)
    requires read.progress.Answered? ==>
               read.progress.at == g.sched.clock
               && (read.progress.response.RateLimitedReply? ==>
                     PromisedUntil(read.progress.response, read.progress.at) <= g.until)
    ensures PromiseOk(g, read)
  {
  }

  /** An answer given now promises no more than the backoff holds. */
  predicate FairNow(g: Gateway, read: Read) {
    read.progress.Answered? ==>
      && read.progress.at == g.sched.clock
      && (read.progress.response.RateLimitedReply? ==>
            PromisedUntil(read.progress.response, read.progress.at) <= g.until)
  }

  lemma CeilingBounds(x: real)
    ensures x <= Ceiling(x) as real < x + 1.0
  {
  }

  lemma NotedReplyIsFair(g: Gateway, meta: Metadata)
    requires meta.cause.RateLimited?
    ensures PromisedUntil(FailureReply(meta), g.sched.clock) <= Note(g, meta).until
  {
    CeilingBounds(DelayOf(meta));
  }

  lemma AttemptIsFair(g: Gateway, read: Read)
    requires Refs(g.sched)
    ensures var (h, r) := Attempt(g, read);
            FairNow(h, r) && h.until == g.until && h.sched.clock == Attempt(g, read).0.sched.clock
            && h.log == g.log && h.clients == g.clients
            && (Cooldown(g) > 0.0 ==> h == g)
            && (Cooldown(g) <= 0.0 ==> !r.progress.Answered? || !r.progress.response.RateLimitedReply?)
  {
    hide Submit, Refs;
    RefusedUnchanged(g.sched, AttemptRequest(g, read));
    CeilingBounds(Cooldown(g));
  }

  lemma RefusedUnchanged(s: State, request: Request)
    requires Refs(s)
    ensures Submit(s, request).1.Rejected? ==> Submit(s, request).0 == s
  {
  }

  lemma ResumeIsFair(g: Gateway, read: Read, job: Job)
    ensures var (h, r) := Resume(g, read, job);
            FairNow(h, r) && h.clients == g.clients && h.sched == g.sched && g.until <= h.until
  {
    hide Note, DelayOf, PromisedUntil;
    match job.result
    case Own(Raised(Unavailable(meta))) =>
      NoteGrows(g, meta);
      if meta.cause.RateLimited? {
        NotedReplyIsFair(g, meta);
      }
    case _ =>
  }

  lemma NoteGrows(g: Gateway, meta: Metadata)
    ensures var h := Note(g, meta);
            h.clients == g.clients && h.sched == g.sched && g.until <= h.until
  {
  }

  /** Every client of the next state is one of this state, unchanged or not answered, or has
      just been answered fairly. */
  ghost predicate ClientsFair(g: Gateway, r: Gateway) {
    && |g.clients| <= |r.clients|
    && (forall i :: 0 <= i < |g.clients| ==> r.clients[i] == g.clients[i] || FairNow(r, r.clients[i]))
    && (forall i :: |g.clients| <= i < |r.clients| ==> FairNow(r, r.clients[i]))
  }

  lemma ActIsFair(g: Gateway, move: Move)
    requires GatewayInv(g)
    ensures Refs(g.sched) && ClientsFair(g, Act(g, move))
  {
    hide GatewayInv, Inv, Refs, Attempt, Resume, Submit, QueueTimer, CallerCancel, LifecycleWakes, Shutdown, RunStarts, OperationBegins, OperationEnds, Note, DelayOf, PromisedUntil, Ready;
    InvOf(g);
    InvRefs(g.sched);
    match move
    case Arrives(priority, retryable) =>
      AttemptIsFair(g, Read(priority, retryable, g.sched.clock, g.sched.clock + g.config.upstreamTimeout, [], Sleeping(g.sched.clock), false));
    case Retries(i) => if i < |g.clients| { AttemptIsFair(g, g.clients[i]); }
    case Resumes(i) =>
      if i < |g.clients| && g.clients[i].progress.Waiting? && g.clients[i].progress.id < |g.sched.jobs| {
        ResumeIsFair(g, g.clients[i], g.sched.jobs[g.clients[i].progress.id]);
      }
    case Leaves(i) => LeavingKeepsClock(g, i);
    case JoinedReadFails(priority, meta) =>
      NoteGrows(g, meta);
      if meta.cause.RateLimited? {
        NotedReplyIsFair(g, meta);
      }
    case BuildStops(own) => if own.Raised? && own.failure.Unavailable? { NoteGrows(g.(sched := OperationEnds(g.sched, own)), own.failure.meta); }
    case _ =>
  }

  lemma LeavingKeepsClock(g: Gateway, i: nat)
    ensures CallerLeaves(g, i).sched.clock == g.sched.clock
  {
    hide Without;
  }

  // ---------------------------------------------------------------------------------------
  // Every run.
  // ---------------------------------------------------------------------------------------

  ghost predicate CooldownInv(g: Gateway) {
    && GatewayInv(g)
    && BuildsOk(g.log, g.sched.jobs, g.sched.clock) && BuildsLogged(g.log, g.sched.jobs)
    && PromisesOk(g)
  }

  lemma ActIsOnward(g: Gateway, move: Move)
    requires GatewayInv(g)
    ensures Refs(g.sched) && Onward(g, Act(g, move))
  {
    hide GatewayInv, Inv, Refs, Act, OpsKept;
    InvOf(g);
    InvRefs(g.sched);
    ActKeeps(g, move);
    match move
    case BuildStarts => BeginIsOnward(g);
    case BuildStops(own) => EndIsOnward(g, own);
    case _ => MostMovesAreQuiet(g, move);
  }

  lemma BeginIsOnward(g: Gateway)
    requires Refs(g.sched)
    ensures Onward(g, Act(g, BuildStarts))
  {
    hide Refs;
  }

  lemma EndIsOnward(g: Gateway, own: Outcome)
    requires Refs(g.sched)
    ensures Onward(g, Act(g, BuildStops(own)))
  {
    hide Refs;
  }

  lemma ActKeepsPromises(g: Gateway, move: Move)
    requires CooldownInv(g)
    ensures Refs(g.sched) && PromisesOk(Act(g, move))
  {
    hide GatewayInv, Act, Refs, PromiseOk, BuildOk, SupersededOk, Onward, FairNow;
    ActIsOnward(g, move);
    ActIsFair(g, move);
    var r := Act(g, move);
    PastStays(g, r);
    forall i | 0 <= i < |r.clients|
      ensures PromiseOk(r, r.clients[i])
    {
      if i < |g.clients| && r.clients[i] == g.clients[i] {
        PromiseStays(g, r, g.clients[i]);
      } else {
        FairIsPromised(r, r.clients[i]);
      }
    }
  }

  lemma FairIsPromised(g: Gateway, read: Read)
    requires LogPast(g) && FairNow(g, read)
    ensures PromiseOk(g, read)
  {
  }

  lemma PastStays(g: Gateway, r: Gateway)
    requires BuildsOk(g.log, g.sched.jobs, g.sched.clock) && Onward(g, r)
    ensures LogPast(r)
  {
    hide BuildOk, SupersededOk;
    forall j | 0 <= j < |r.log| && r.log[j].BuildBegan?
      ensures r.log[j].at <= r.sched.clock
    {
      if j < |g.log| {
        assert r.log[j] == g.log[j];
      }
    }
  }

  lemma ActKeepsBuilds(g: Gateway, move: Move)
    requires CooldownInv(g)
    ensures Refs(g.sched)
    ensures var r := Act(g, move);
            BuildsOk(r.log, r.sched.jobs, r.sched.clock) && BuildsLogged(r.log, r.sched.jobs)
  {
    hide GatewayInv, Inv, Refs, BuildsOk, BuildsLogged, PromisesOk, BuildBegins, BuildEnds, OpsKept;
    InvOf(g);
    InvRefs(g.sched);
    match move
    case BuildStarts =>
      BuildBeginsKeepsBuilds(g);
      BuildBeginsKeepsLogged(g);
    case BuildStops(own) =>
      BuildEndsKeepsBuilds(g, own);
      BuildEndsKeepsLogged(g, own);
    case _ =>
      MostMovesAreQuiet(g, move);
      ActKeepsClock(g, move);
      OpsKeepLogged(g.log, g.sched, Act(g, move).log, Act(g, move).sched);
      QuietKeepsBuilds(g.log, g.sched, Act(g, move).log, Act(g, move).sched);
  }

  lemma ActKeepsClock(g: Gateway, move: Move)
    requires GatewayInv(g)
    ensures Refs(g.sched) && Act(g, move).sched.clock == g.sched.clock
  {
    hide GatewayInv, Act, Refs, Inv;
    InvOf(g);
    InvRefs(g.sched);
    ActKeeps(g, move);
  }

  lemma ClockKeepsCooldown(g: Gateway, at: real)
    requires CooldownInv(g) && g.sched.clock <= at
    ensures CooldownInv(At(g, at))
  {
    hide GatewayInv, BuildOk, SupersededOk;
    TimePasses(g, at);
    forall i | 0 <= i < |g.clients|
      ensures PromiseOk(At(g, at), g.clients[i])
    {
      assert PromiseOk(g, g.clients[i]);
    }
  }

  lemma MovedKeepsCooldown(g: Gateway, m: TimedMove)
    requires CooldownInv(g)
    ensures CooldownInv(Moved(g, m))
  {
    hide GatewayInv, Act, BuildsOk, BuildsLogged, PromisesOk, Inv, Refs;
    InvOf(g);
    InvRefs(g.sched);
    if g.sched.clock <= m.at {
      ClockKeepsCooldown(g, m.at);
      ActKeepsBuilds(At(g, m.at), m.move);
      ActKeepsPromises(At(g, m.at), m.move);
      assert Moved(g, m) == Act(At(g, m.at), m.move);
    } else {
      assert Moved(g, m) == g;
    }
  }

  lemma {:induction false} RunKeepsCooldown(g: Gateway, moves: seq<TimedMove>)
    requires CooldownInv(g)
    ensures CooldownInv(RunReads(g, moves))
    decreases |moves|
  {
    hide GatewayInv, Moved, BuildsOk, BuildsLogged, PromisesOk;
    if moves != [] {
      MovedKeepsCooldown(g, moves[0]);
      RunKeepsCooldown(Moved(g, moves[0]), moves[1..]);
    }
  }

  lemma OpenKeepsCooldown(config: Config, limits: PerClass<nat>)
    requires ConfigOk(config)
    ensures CooldownInv(Opened(config, limits))
  {
    hide GatewayInv;
    var g := Opened(config, limits);
    assert g == Open(config, limits);
  }

  /** Read `i` began before read `j`: it is over, and if it ended in a rate limit, the delay this
      asks for has passed since its end. */
  ghost predicate KeptAway(log: seq<CooldownEvent>, jobs: seq<Job>, i: nat, j: nat)
    requires IsBuild(log, i) && IsBuild(log, j)
  {
    && log[i].id < |jobs| && jobs[log[i].id].op.Over?
    && var op := jobs[log[i].id].op;
    && (LimitOf(op).Some? ==> op.endedAt + DelayOf(LimitOf(op).value) <= log[j].at)
  }

  ghost predicate AllKeptAway(log: seq<CooldownEvent>, jobs: seq<Job>) {
    && (forall i: nat :: IsBuild(log, i) ==> log[i].id < |jobs| && !jobs[log[i].id].op.Unborn?)
    && (forall i: nat, j: nat :: i < j && IsBuild(log, i) && IsBuild(log, j) ==> KeptAway(log, jobs, i, j))
  }

  lemma BuildsAreKeptAway(g: Gateway)
    requires BuildsOk(g.log, g.sched.jobs, g.sched.clock) && CooldownOk(g)
    ensures AllKeptAway(g.log, g.sched.jobs)
  {
    hide NotedAfter, DelayOf;
    forall i: nat, j: nat | i < j && IsBuild(g.log, i) && IsBuild(g.log, j)
      ensures KeptAway(g.log, g.sched.jobs, i, j)
    {
      assert BuildOk(g.log, g.sched.jobs, i) && SupersededOk(g.log, g.sched.jobs, i, j);
      var op := g.sched.jobs[g.log[i].id].op;
      if LimitOf(op).Some? {
        var n := NoteBehind(g.log, i, op.endedAt, DelayOf(LimitOf(op).value));
        assert n < j;
      }
    }
    forall i: nat | IsBuild(g.log, i)
      ensures g.log[i].id < |g.sched.jobs| && !g.sched.jobs[g.log[i].id].op.Unborn?
    {
      assert BuildOk(g.log, g.sched.jobs, i);
    }
  }

  lemma NoteBehind(log: seq<CooldownEvent>, i: nat, at: real, delay: real) returns (n: nat)
    requires NotedAfter(log, i, at, delay)
    ensures i < n < |log| && log[n] == Noted(at, delay)
    ensures forall j :: i < j < |log| && log[j].BuildBegan? ==> n < j
  {
    n :| i < n < |log| && log[n] == Noted(at, delay) && forall j :: i < j < n ==> !log[j].BuildBegan?;
  }

  ghost predicate BackoffBounded(g: Gateway) {
    g.until - g.sched.clock <= 60.0 && forall i :: 0 <= i < |g.clients| ==> HintReadsBack(g.clients[i])
  }

  /** No provider read begins within max(1, hint) seconds of the end of one that was rate
      limited. Every operation that runs, or ended otherwise than in a rate limit, is a logged
      provider read; in every run, when a read begins after another one, that one is over, and if it
      ended in a rate limit then at least the delay this asks for has passed since its end. It
      does not matter who met the limit or whether that caller still waited. The shared backoff
      never reaches more than a minute ahead, and every Retry-After announced is read back
      unchanged by the client. */
  lemma CooldownSafety(config: Config, limits: PerClass<nat>, moves: seq<TimedMove>)
    requires ConfigOk(config)
    ensures var g := RunReads(Opened(config, limits), moves);
            BuildsLogged(g.log, g.sched.jobs) && AllKeptAway(g.log, g.sched.jobs) && BackoffBounded(g)
  {
    hide Inv, ReadsOk, RunReads, Opened, BuildsOk, BuildsLogged, PromisesOk, AllKeptAway, CooldownOk;
    OpenKeepsCooldown(config, limits);
    RunKeepsCooldown(Opened(config, limits), moves);
    NotesAreHonoured(config, limits, moves);
    BuildsAreKeptAway(RunReads(Opened(config, limits), moves));
  }

  /** Whoever is told to stay away can rely on it: after a rate-limit answer that announces `n`
      seconds no provider read begins for more than `n - 1` seconds, and after one without a
      number for a whole second, whichever way the answer came about. */
  lemma RepliesAreHonoured(config: Config, limits: PerClass<nat>, moves: seq<TimedMove>)
    requires ConfigOk(config)
    ensures PromisesOk(RunReads(Opened(config, limits), moves))
  {
    hide GatewayInv, RunReads, Opened, BuildsOk, BuildsLogged, PromisesOk;
    OpenKeepsCooldown(config, limits);
    RunKeepsCooldown(Opened(config, limits), moves);
  }
}
