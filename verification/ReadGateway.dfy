/** Market-data reads above the scheduler: one retry inside an absolute budget, and a
    rate-limit cooldown shared by all reads. Steps of many concurrent reads interleave freely
    with the steps of the one scheduler they share. */
module ReadGateway {
  import opened Common
  import opened Failures
  import opened DispatchBoard
  import opened SchedulerModel

  datatype Config = Config(queueTimeout: PerClass<real>, upstreamTimeout: real)

  datatype Response =
    | Body(value: nat)
    | RateLimitedReply(retryAfter: Option<int>)
    | ConnectTimeoutReply
    | UnavailableReply
    | MalformedReply
    | CapacityReply
    | QueueTimeoutReply
    | UpstreamTimeoutReply
    | Aborted

  datatype Progress = Waiting(id: nat) | Sleeping(wakeAt: real) | Answered(response: Response, at: real)

  datatype Read = Read(
    priority: Priority,
    retryable: bool,
    arrivedAt: real,
    deadline: real,
    attempts: seq<nat>,
    progress: Progress,
    left: bool)  // its client disconnected

  datatype CooldownEvent =
    | Noted(at: real, delay: real)
    | BuildBegan(id: nat, at: real)

  datatype Gateway = Gateway(
    config: Config,
    sched: State,
    until: real,
    clients: seq<Read>,
    log: seq<CooldownEvent>)

  const MIN_REMAINING := 0.001
  const RETRY_RESERVE := 1.1
  const RETRY_PAUSE := 0.1
  const MAX_HINT := 60.0

  function Open(config: Config, limits: PerClass<nat>): Gateway {
    Gateway(config, Initial(limits), 0.0, [], [])
  }

  function Cooldown(g: Gateway): real {
    g.until - g.sched.clock
  }

  /** The pause a rate-limit failure asks for: its hint, but at least one second. */
  function DelayOf(meta: Metadata): (r: real)
    ensures 1.0 <= r <= 60.0
  {
    Max(1.0, if meta.retryAfter.Some? && meta.retryAfter.value != 0.0 then meta.retryAfter.value else 1.0)
  }

  /** Record a rate limit in the shared backoff. */
  function Note(g: Gateway, meta: Metadata): Gateway {
    g.(until := Max(g.until, g.sched.clock + DelayOf(meta)),
       log := g.log + [Noted(g.sched.clock, DelayOf(meta))])
  }

  /** The answer to a failed read, noting a rate limit on the way. */
  function FailureReply(meta: Metadata): Response {
    match meta.cause
    case RateLimited => RateLimitedReply(if meta.retryAfter.Some? then Some(Ceiling(DelayOf(meta))) else None)
    case ConnectTimeout => ConnectTimeoutReply
    case OtherCause => UnavailableReply
  }

  function AttemptRequest(g: Gateway, read: Read): Request {
    var patience := g.config.queueTimeout.At(read.priority);
    if read.attempts == [] then Request(read.priority, true, patience, g.config.upstreamTimeout, None)
    else
      var remaining := Max(MIN_REMAINING, read.deadline - g.sched.clock);
      Request(read.priority, true, Min(patience, remaining), remaining, Some(read.deadline))
  }

  /** One round of the attempt loop, up to the wait for the scheduler. */
  function Attempt(g: Gateway, read: Read): (Gateway, Read)
    requires Refs(g.sched)
  {
    if Cooldown(g) > 0.0 then
      (g, read.(progress := Answered(RateLimitedReply(Some(Ceiling(Cooldown(g)))), g.sched.clock)))
    else
      var (sched, reply) := Submit(g.sched, AttemptRequest(g, read));
      match reply
      case Accepted(id) => (g.(sched := sched), read.(attempts := read.attempts + [id], progress := Waiting(id)))
      case Rejected(InvalidArgument) => (g, read.(progress := Answered(MalformedReply, g.sched.clock)))
      case Rejected(_) => (g, read.(progress := Answered(CapacityReply, g.sched.clock)))
  }

  function Arrive(g: Gateway, priority: Priority, retryable: bool): Gateway
    requires Refs(g.sched)
  {
    var read := Read(priority, retryable, g.sched.clock, g.sched.clock + g.config.upstreamTimeout, [], Sleeping(g.sched.clock), false);
    var (h, r) := Attempt(g, read);
    h.(clients := h.clients + [r])
  }

  /** The guarded operation starts: it refuses to build while the cooldown lasts. */
  function BuildBegins(g: Gateway): Gateway {
    var s := OperationBegins(g.sched);
    if s == g.sched || !HasCurrent(s) then g
    else if Cooldown(g) > 0.0 then
      var meta: Metadata := Metadata(RateLimited, Some(Min(MAX_HINT, Cooldown(g))));
      g.(sched := OperationEnds(s, Raised(Unavailable(meta))))
    else
      g.(sched := s, log := g.log + [BuildBegan(s.current.value, s.clock)])
  }

  /** The provider read ends; a rate limit is noted before anybody hears of it. */
  function BuildEnds(g: Gateway, own: Outcome): Gateway {
    var s := OperationEnds(g.sched, own);
    if s == g.sched then g
    else if own.Raised? && own.failure.Unavailable? && own.failure.meta.cause.RateLimited? then
      Note(g.(sched := s), own.failure.meta)
    else g.(sched := s)
  }

  /** What `execute` hands back, once it can. */
  predicate Ready(job: Job) {
    job.started.StartTimedOut? || job.started.StartWithdrawn? || !job.result.Pending?
  }

  /** The read resumes with its job's answer. */
  function Resume(g: Gateway, read: Read, job: Job): (Gateway, Read) {
    var now := g.sched.clock;
    if job.started.StartTimedOut? then (g, read.(progress := Answered(QueueTimeoutReply, now)))
    else if job.started.StartWithdrawn? then (g, read.(progress := Answered(Aborted, now)))
    else
      match job.result
      case Own(Returned(value)) => (g, read.(progress := Answered(Body(value), now)))
      case Own(Raised(Malformed)) => (g, read.(progress := Answered(MalformedReply, now)))
      case Own(Raised(Unavailable(meta))) =>
        if meta.cause.RateLimited? then (Note(g, meta), read.(progress := Answered(FailureReply(meta), now)))
        else if meta.cause.ConnectTimeout? && |read.attempts| == 1 && read.retryable
                && read.deadline - now >= RETRY_RESERVE then
          (g, read.(progress := Sleeping(now + RETRY_PAUSE)))
        else (g, read.(progress := Answered(FailureReply(meta), now)))
      case UpstreamTimeout => (g, read.(progress := Answered(UpstreamTimeoutReply, now)))
      case _ => (g, read.(progress := Answered(Aborted, now)))
  }

  function CallerResumes(g: Gateway, i: nat): Gateway {
    if i < |g.clients| && g.clients[i].progress.Waiting? && g.clients[i].progress.id < |g.sched.jobs|
       && Ready(g.sched.jobs[g.clients[i].progress.id]) then
      var (h, r) := Resume(g, g.clients[i], g.sched.jobs[g.clients[i].progress.id]);
      h.(clients := h.clients[i := r])
    else g
  }

  /** The client disconnects; a running operation keeps the slot. */
  function CallerLeaves(g: Gateway, i: nat): Gateway {
    if i < |g.clients| && !g.clients[i].progress.Answered? then
      var sched := if g.clients[i].progress.Waiting? then CallerCancel(g.sched, g.clients[i].progress.id) else g.sched;
      g.(sched := sched, clients := g.clients[i := g.clients[i].(progress := Answered(Aborted, g.sched.clock), left := true)])
    else g
  }

  function RetryWakes(g: Gateway, i: nat): Gateway
    requires Refs(g.sched)
  {
    if i < |g.clients| && g.clients[i].progress.Sleeping? && g.clients[i].progress.wakeAt <= g.sched.clock then
      var (h, r) := Attempt(g, g.clients[i]);
      h.(clients := h.clients[i := r])
    else g
  }

  /** The answer of a read that waited on a fetch it did not own; it enters the table with it. */
  function JoinedRead(g: Gateway, priority: Priority, meta: Metadata): Read {
    var now := g.sched.clock;
    Read(priority, false, now, now + g.config.upstreamTimeout, [], Answered(FailureReply(meta), now), false)
  }

  function JoinedFails(g: Gateway, priority: Priority, meta: Metadata): Gateway {
    var h := if meta.cause.RateLimited? then Note(g, meta) else g;
    h.(clients := h.clients + [JoinedRead(g, priority, meta)])
  }

  datatype Move =
    | Arrives(priority: Priority, retryable: bool)
    | QueueDeadlinePasses(id: nat)
    | TaskStarts
    | BuildStarts
    | BuildStops(own: Outcome)
    | TaskWakes
    | Resumes(read: nat)
    | Leaves(read: nat)
    | Retries(read: nat)
    // A read that joined another one's fetch, without a job of its own, is told its failure.
    | JoinedReadFails(priority: Priority, meta: Metadata)
    | Stops

  function Act(g: Gateway, move: Move): Gateway
    requires Refs(g.sched)
  {
    match move
    case Arrives(priority, retryable) => Arrive(g, priority, retryable)
    case QueueDeadlinePasses(id) => g.(sched := QueueTimer(g.sched, id))
    case TaskStarts => g.(sched := RunStarts(g.sched))
    case BuildStarts => BuildBegins(g)
    case BuildStops(own) => BuildEnds(g, own)
    case TaskWakes => g.(sched := LifecycleWakes(g.sched))
    case Resumes(i) => CallerResumes(g, i)
    case Leaves(i) => CallerLeaves(g, i)
    case Retries(i) => RetryWakes(g, i)
    case JoinedReadFails(priority, meta) => JoinedFails(g, priority, meta)
    case Stops => g.(sched := Shutdown(g.sched))
  }

  function At(g: Gateway, at: real): Gateway {
    g.(sched := g.sched.(clock := at))
  }

  function Proceed(g: Gateway, move: Move, at: real): Gateway
    requires Refs(g.sched)
  {
    if at < g.sched.clock then g else Act(At(g, at), move)
  }
}
