/** What follows from legality alone, for every history of the scheduler. */
module DispatchGuarantees {
  import opened Common
  import opened DispatchBoard

  /** `e` takes job `id` out of its queue. */
  predicate Exits(e: Event, id: nat) {
    (e.Dispatched? || e.Expired? || e.Removed?) && e.id == id
  }

  /** `e` gives back the allocation of job `id`. */
  predicate Frees(e: Event, id: nat) {
    (e.Released? || e.Expired? || e.Removed?) && e.id == id
  }

  ghost function DispatchCount(tr: seq<Event>): nat {
    if tr == [] then 0
    else DispatchCount(tr[..|tr| - 1]) + if tr[|tr| - 1].Dispatched? then 1 else 0
  }

  ghost function ExitCount(tr: seq<Event>, id: nat): nat {
    if tr == [] then 0
    else ExitCount(tr[..|tr| - 1], id) + if Exits(tr[|tr| - 1], id) then 1 else 0
  }

  ghost function FreeCount(tr: seq<Event>, id: nat): nat {
    if tr == [] then 0
    else FreeCount(tr[..|tr| - 1], id) + if Frees(tr[|tr| - 1], id) then 1 else 0
  }

  ghost function BoardBefore(tr: seq<Event>, k: nat, limits: PerClass<nat>): Board
    requires Legal(tr, limits) && k <= |tr|
  {
    LegalPrefix(tr, k, limits);
    Replay(tr[..k], limits).value
  }

  /** The class job `id` was admitted under. */
  ghost predicate OfClass(tr: seq<Event>, id: nat, p: Priority) {
    exists k :: 0 <= k < |tr| && tr[k].Admitted? && tr[k].id == id && tr[k].ticket.priority == p
  }

  /** One event further, in a form every induction below uses. */
  lemma Advance(tr: seq<Event>, k: nat, limits: PerClass<nat>)
    requires Legal(tr, limits) && k < |tr|
    ensures var b := BoardBefore(tr, k, limits);
            && BoardOk(b, limits)
            && (b.current.Some? ==> b.current.value < |b.tickets|)
            && Allowed(b, tr[k], limits)
            && BoardBefore(tr, k + 1, limits) == Play(b, tr[k], limits)
            && BoardOk(Play(b, tr[k], limits), limits)
  {
    LegalAt(tr, k, limits);
    LegalBoardOk(tr[..k], limits);
    PlayKeepsOk(BoardBefore(tr, k, limits), tr[k], limits);
  }

  /** Tickets are never rewritten. */
  lemma {:induction false} TicketsOnlyGrow(tr: seq<Event>, k: nat, m: nat, limits: PerClass<nat>)
    requires Legal(tr, limits) && k <= m <= |tr|
    ensures BoardBefore(tr, k, limits).tickets <= BoardBefore(tr, m, limits).tickets
    ensures BoardBefore(tr, k, limits).clock <= BoardBefore(tr, m, limits).clock
    decreases m - k
  {
    hide Replay, Legal, BoardBefore, BoardOk, Play, Allowed;
    if k < m {
      TicketsOnlyGrow(tr, k, m - 1, limits);
      Advance(tr, m - 1, limits);
      PlayGrows(BoardBefore(tr, m - 1, limits), tr[m - 1], limits);
    }
  }

  lemma PlayGrows(b: Board, e: Event, limits: PerClass<nat>)
    requires b.current.Some? ==> b.current.value < |b.tickets|
    requires Allowed(b, e, limits)
    ensures b.tickets <= Play(b, e, limits).tickets && b.clock <= Play(b, e, limits).clock
  {
  }

  lemma TicketStep(tr: seq<Event>, k: nat, limits: PerClass<nat>)
    requires Legal(tr, limits) && k < |tr|
    ensures var b, r := BoardBefore(tr, k, limits).tickets, BoardBefore(tr, k + 1, limits).tickets;
            if tr[k].Admitted? then tr[k].id == |b| && r == b + [tr[k].ticket] else r == b
  {
    Advance(tr, k, limits);
  }

  /** Ticket `id` records the class and deadline of the admission event of job `id`. */
  lemma {:induction false} TicketFromAdmission(tr: seq<Event>, m: nat, id: nat, limits: PerClass<nat>)
    requires Legal(tr, limits) && m <= |tr|
    requires id < |BoardBefore(tr, m, limits).tickets|
    ensures exists k :: 0 <= k < m && tr[k].Admitted? && tr[k].id == id
                        && tr[k].ticket == BoardBefore(tr, m, limits).tickets[id]
  {
    assert m > 0;
    TicketStep(tr, m - 1, limits);
    if id < |BoardBefore(tr, m - 1, limits).tickets| {
      TicketFromAdmission(tr, m - 1, id, limits);
    } else {
      assert tr[m - 1].Admitted?;
    }
  }

  // ---------------------------------------------------------------------------------------
  // Strict priority: nothing overtakes a waiting protected job except older protected jobs.
  // ---------------------------------------------------------------------------------------

  lemma OneStepBypass(b: Board, e: Event, j: nat, limits: PerClass<nat>)
    requires BoardOk(b, limits) && Allowed(b, e, limits)
    requires j in b.queues.first && !Exits(e, j)
    ensures j in Play(b, e, limits).queues.first
    ensures IndexOf(Play(b, e, limits).queues.first, j) + (if e.Dispatched? then 1 else 0)
            <= IndexOf(b.queues.first, j)
    ensures e.Dispatched? ==> b.tickets[e.id].priority == Protected
  {
    var q := b.queues.first;
    if e.Expired? || e.Removed? {
      if b.tickets[e.id].priority.Protected? {
        WithoutMovesForward(q, e.id, j);
      }
    } else if e.Dispatched? {
      assert q[0] == e.id;
      assert q == [q[0]] + q[1..];
    } else if e.Admitted? {
      if e.ticket.priority.Protected? {
        var r := q + [e.id];
        assert r[IndexOf(q, j)] == j;
      }
    }
  }

  lemma BypassStep(tr: seq<Event>, k: nat, j: nat, limits: PerClass<nat>)
    requires Legal(tr, limits) && k < |tr|
    requires j in BoardBefore(tr, k, limits).queues.first && !Exits(tr[k], j)
    ensures j in BoardBefore(tr, k + 1, limits).queues.first
    ensures IndexOf(BoardBefore(tr, k + 1, limits).queues.first, j) + (if tr[k].Dispatched? then 1 else 0)
            <= IndexOf(BoardBefore(tr, k, limits).queues.first, j)
    ensures tr[k].Dispatched? ==> OfClass(tr[..k], tr[k].id, Protected)
  {
    Advance(tr, k, limits);
    OneStepBypass(BoardBefore(tr, k, limits), tr[k], j, limits);
    if tr[k].Dispatched? {
      TicketClass(tr, k, tr[k].id, limits);
    }
  }

  /** The class recorded on a ticket is the class of the admission. */
  lemma TicketClass(tr: seq<Event>, m: nat, id: nat, limits: PerClass<nat>)
    requires Legal(tr, limits) && m <= |tr|
    requires id < |BoardBefore(tr, m, limits).tickets|
    ensures OfClass(tr[..m], id, BoardBefore(tr, m, limits).tickets[id].priority)
  {
    TicketFromAdmission(tr, m, id, limits);
    var k :| 0 <= k < m && tr[k].Admitted? && tr[k].id == id
             && tr[k].ticket == BoardBefore(tr, m, limits).tickets[id];
    assert tr[..m][k] == tr[k];
  }

  lemma Enters(tr: seq<Event>, a: nat, limits: PerClass<nat>)
    requires Legal(tr, limits) && a < |tr|
    requires tr[a].Admitted? && tr[a].ticket.priority == Protected
    ensures var before, after := BoardBefore(tr, a, limits).queues.first, BoardBefore(tr, a + 1, limits).queues.first;
            && tr[a].id in after
            && IndexOf(after, tr[a].id) == |before|
            && |before| <= limits.first - 1
  {
    Advance(tr, a, limits);
    var q := BoardBefore(tr, a, limits).queues.first;
    assert (q + [tr[a].id])[|q|] == tr[a].id;
  }

  lemma {:induction false} BypassSoFar(tr: seq<Event>, a: nat, b: nat, j: nat, limits: PerClass<nat>)
    requires Legal(tr, limits) && a < b <= |tr|
    requires tr[a].Admitted? && tr[a].id == j && tr[a].ticket.priority == Protected
    requires forall k :: a < k < b ==> !Exits(tr[k], j)
    ensures j in BoardBefore(tr, b, limits).queues.first
    ensures IndexOf(BoardBefore(tr, b, limits).queues.first, j) + DispatchCount(tr[a + 1..b])
            <= |BoardBefore(tr, a, limits).queues.first|
    ensures forall k :: a < k < b && tr[k].Dispatched? ==> OfClass(tr[..k], tr[k].id, Protected)
    decreases b
  {
    hide Replay, Legal, BoardBefore, BoardOk, OfClass, DispatchCount, Exits;
    if b == a + 1 {
      Enters(tr, a, limits);
      NothingCounted(tr, b);
    } else {
      BypassSoFar(tr, a, b - 1, j, limits);
      BypassStep(tr, b - 1, j, limits);
      OneMoreCounted(tr, a + 1, b);
    }
  }

  lemma NothingCounted(tr: seq<Event>, a: nat)
    requires a <= |tr|
    ensures DispatchCount(tr[a..a]) == 0
  {
  }

  lemma OneMoreCounted(tr: seq<Event>, a: nat, b: nat)
    requires a < b <= |tr|
    ensures DispatchCount(tr[a..b]) == DispatchCount(tr[a..b - 1]) + if tr[b - 1].Dispatched? then 1 else 0
  {
    var window := tr[a..b];
    assert window[..|window| - 1] == tr[a..b - 1];
  }

  /** Bounded bypass: while a protected job waits, every job dispatched is an older protected
      one, and there are at most as many of them as were queued before it on admission: fewer
      than the protected capacity. */
  lemma BoundedBypass(tr: seq<Event>, a: nat, b: nat, limits: PerClass<nat>)
    requires Legal(tr, limits) && a < b <= |tr|
    requires tr[a].Admitted? && tr[a].ticket.priority == Protected
    requires forall k :: a < k < b ==> !Exits(tr[k], tr[a].id)
    ensures forall k :: a < k < b && tr[k].Dispatched? ==> OfClass(tr[..k], tr[k].id, Protected)
    ensures DispatchCount(tr[a + 1..b]) <= |BoardBefore(tr, a, limits).queues.first|
    ensures |BoardBefore(tr, a, limits).queues.first| <= limits.first - 1
  {
    BypassSoFar(tr, a, b, tr[a].id, limits);
    Enters(tr, a, limits);
  }

  // ---------------------------------------------------------------------------------------
  // FIFO inside a class.
  // ---------------------------------------------------------------------------------------

  ghost predicate AllYounger(q: seq<nat>, id: nat) {
    forall y :: y in q ==> id < y
  }

  lemma {:induction false} LaterWaitersAreYounger(
    tr: seq<Event>, a: nat, m: nat, p: Priority, limits: PerClass<nat>)
    requires Legal(tr, limits) && a < m <= |tr|
    requires tr[a].Dispatched? && OfClass(tr[..a], tr[a].id, p)
    ensures AllYounger(BoardBefore(tr, m, limits).queues.At(p), tr[a].id)
    ensures tr[a].id < |BoardBefore(tr, m, limits).tickets|
    decreases m
  {
    hide Replay, Legal, BoardBefore, BoardOk, AllYounger, OfClass, Play;
    if m == a + 1 {
      HeadIsOldest(tr, a, p, limits);
    } else {
      LaterWaitersAreYounger(tr, a, m - 1, p, limits);
      YoungerStaysYounger(tr, m - 1, p, tr[a].id, limits);
      TicketStep(tr, m - 1, limits);
    }
  }

  lemma HeadIsOldest(tr: seq<Event>, a: nat, p: Priority, limits: PerClass<nat>)
    requires Legal(tr, limits) && a < |tr|
    requires tr[a].Dispatched? && OfClass(tr[..a], tr[a].id, p)
    ensures AllYounger(BoardBefore(tr, a + 1, limits).queues.At(p), tr[a].id)
    ensures tr[a].id < |BoardBefore(tr, a + 1, limits).tickets|
  {
    Advance(tr, a, limits);
    ClassIsTicketClass(tr, a, tr[a].id, p, limits);
    var q := BoardBefore(tr, a, limits).queues.At(p);
    assert forall i :: 0 < i < |q| ==> q[0] < q[i];
  }

  /** A queue only ever gains the newly admitted job. */
  lemma YoungerStep(b: Board, e: Event, p: Priority, id: nat, limits: PerClass<nat>)
    requires BoardOk(b, limits) && Allowed(b, e, limits)
    requires AllYounger(b.queues.At(p), id) && id < |b.tickets|
    ensures AllYounger(Play(b, e, limits).queues.At(p), id)
  {
    match e
    case Expired(i, _) => LeavingOnlyShrinks(b, i, p);
    case Removed(i, _) => LeavingOnlyShrinks(b, i, p);
    case _ =>
  }

  lemma LeavingOnlyShrinks(b: Board, i: nat, p: Priority)
    requires Waiting(b, i) && Ascending(b.queues.first) && Ascending(b.queues.second)
    ensures forall y :: y in Leave(b, i).queues.At(p) ==> y in b.queues.At(p)
  {
    hide Ascending, Without;
    WithoutAscending(b.queues.At(b.tickets[i].priority), i);
  }

  lemma YoungerStaysYounger(tr: seq<Event>, k: nat, p: Priority, id: nat, limits: PerClass<nat>)
    requires Legal(tr, limits) && k < |tr|
    requires AllYounger(BoardBefore(tr, k, limits).queues.At(p), id)
    requires id < |BoardBefore(tr, k, limits).tickets|
    ensures AllYounger(BoardBefore(tr, k + 1, limits).queues.At(p), id)
  {
    hide Replay, Legal, BoardBefore, BoardOk, Play, Allowed, AllYounger;
    Advance(tr, k, limits);
    YoungerStep(BoardBefore(tr, k, limits), tr[k], p, id, limits);
  }

  lemma ClassIsTicketClass(tr: seq<Event>, m: nat, id: nat, p: Priority, limits: PerClass<nat>)
    requires Legal(tr, limits) && m <= |tr| && OfClass(tr[..m], id, p)
    ensures id < |BoardBefore(tr, m, limits).tickets|
    ensures BoardBefore(tr, m, limits).tickets[id].priority == p
  {
    var k :| 0 <= k < m && tr[..m][k].Admitted? && tr[k].id == id && tr[k].ticket.priority == p;
    Advance(tr, k, limits);
    TicketsOnlyGrow(tr, k + 1, m, limits);
  }

  /** Dispatch order within a class is a subsequence of admission order. */
  lemma FifoWithinClass(tr: seq<Event>, a: nat, b: nat, p: Priority, limits: PerClass<nat>)
    requires Legal(tr, limits) && a < b < |tr|
    requires tr[a].Dispatched? && tr[b].Dispatched?
    requires OfClass(tr[..a], tr[a].id, p) && OfClass(tr[..b], tr[b].id, p)
    ensures tr[a].id < tr[b].id
    ensures forall i, j | 0 <= i < |tr| && 0 <= j < |tr| && tr[i].Admitted? && tr[j].Admitted?
                          && tr[i].id == tr[a].id && tr[j].id == tr[b].id :: i < j
  {
    LaterWaitersAreYounger(tr, a, b, p, limits);
    Advance(tr, b, limits);
    ClassIsTicketClass(tr, b, tr[b].id, p, limits);
    forall i, j | 0 <= i < |tr| && 0 <= j < |tr| && tr[i].Admitted? && tr[j].Admitted?
                  && tr[i].id == tr[a].id && tr[j].id == tr[b].id
      ensures i < j
    {
      TicketStep(tr, i, limits);
      TicketStep(tr, j, limits);
      if j <= i {
        TicketsOnlyGrow(tr, j, i, limits);
      }
    }
  }

  // ---------------------------------------------------------------------------------------
  // One fate per job.
  // ---------------------------------------------------------------------------------------

  lemma OneStepFate(b: Board, e: Event, id: nat, limits: PerClass<nat>)
    requires BoardOk(b, limits) && Allowed(b, e, limits)
    ensures var r := Play(b, e, limits);
            && (Waiting(r, id) <==> (Waiting(b, id) && !Exits(e, id)) || (e.Admitted? && e.id == id))
            && (r.current == Some(id) <==> (b.current == Some(id) && !e.Released?) || (e.Dispatched? && e.id == id))
            && (Exits(e, id) ==> Waiting(b, id))
            && (Frees(e, id) ==> Waiting(b, id) || b.current == Some(id))
  {
    match e
    case Admitted(_, _, _) => AdmitKeepsOk(b, e, limits);
    case Dispatched(_, _) => DispatchKeepsOk(b, e, limits);
    case Expired(i, at) => LeaveKeepsOk(b.(clock := at), i, limits);
    case Removed(i, at) => LeaveKeepsOk(b.(clock := at), i, limits);
    case _ =>
  }

  function HasLeft(b: Board, id: nat): nat {
    if id < |b.tickets| && !Waiting(b, id) then 1 else 0
  }

  function HasFreed(b: Board, id: nat): nat {
    if id < |b.tickets| && !Waiting(b, id) && b.current != Some(id) then 1 else 0
  }

  lemma FateStep(b: Board, e: Event, id: nat, limits: PerClass<nat>)
    requires BoardOk(b, limits) && Allowed(b, e, limits)
    ensures HasLeft(Play(b, e, limits), id) == HasLeft(b, id) + if Exits(e, id) then 1 else 0
    ensures HasFreed(Play(b, e, limits), id) == HasFreed(b, id) + if Frees(e, id) then 1 else 0
  {
    OneStepFate(b, e, id, limits);
    var current := b.current;
    assert current.Some? ==> current.value < |b.tickets| && !Waiting(b, current.value);
    assert |Play(b, e, limits).tickets| == |b.tickets| + if e.Admitted? then 1 else 0;
    hide BoardOk, Play, Waiting;
  }

  /** Every admitted job has left its queue exactly once or is still in it, has given its
      allocation back exactly once or is still waiting or running; nobody else ever has. */
  lemma {:induction false} UniqueFate(tr: seq<Event>, m: nat, id: nat, limits: PerClass<nat>)
    requires Legal(tr, limits) && m <= |tr|
    ensures var b := BoardBefore(tr, m, limits);
            && ExitCount(tr[..m], id) == (if id < |b.tickets| && !Waiting(b, id) then 1 else 0)
            && FreeCount(tr[..m], id)
                 == (if id < |b.tickets| && !Waiting(b, id) && b.current != Some(id) then 1 else 0)
  {
    hide Replay, Legal, BoardBefore, BoardOk, Play, Waiting, Allowed, Exits, Frees, ExitCount, FreeCount;
    if m == 0 {
      NothingHappened(tr, id, limits);
    } else {
      UniqueFate(tr, m - 1, id, limits);
      Advance(tr, m - 1, limits);
      FateStep(BoardBefore(tr, m - 1, limits), tr[m - 1], id, limits);
      OneMoreFate(tr, m, id);
    }
  }

  lemma NothingHappened(tr: seq<Event>, id: nat, limits: PerClass<nat>)
    requires Legal(tr, limits)
    ensures BoardBefore(tr, 0, limits) == EmptyBoard() && ExitCount(tr[..0], id) == 0 && FreeCount(tr[..0], id) == 0
  {
    assert tr[..0] == [];
  }

  lemma OneMoreFate(tr: seq<Event>, m: nat, id: nat)
    requires 0 < m <= |tr|
    ensures ExitCount(tr[..m], id) == ExitCount(tr[..m - 1], id) + if Exits(tr[m - 1], id) then 1 else 0
    ensures FreeCount(tr[..m], id) == FreeCount(tr[..m - 1], id) + if Frees(tr[m - 1], id) then 1 else 0
  {
    assert tr[..m][..m - 1] == tr[..m - 1];
  }

  /** A job starts only after its own admission, and strictly before its queue deadline. */
  lemma DispatchedInTime(tr: seq<Event>, k: nat, limits: PerClass<nat>)
    requires Legal(tr, limits) && k < |tr| && tr[k].Dispatched?
    ensures exists a :: 0 <= a < k && tr[a].Admitted? && tr[a].id == tr[k].id
                        && tr[a].at <= tr[k].at < tr[a].ticket.queueDeadline
  {
    hide Replay, Legal, BoardBefore, BoardOk;
    Advance(tr, k, limits);
    TicketFromAdmission(tr, k, tr[k].id, limits);
    var a :| 0 <= a < k && tr[a].Admitted? && tr[a].id == tr[k].id
             && tr[a].ticket == BoardBefore(tr, k, limits).tickets[tr[k].id];
    Advance(tr, a, limits);
    TicketsOnlyGrow(tr, a + 1, k, limits);
  }

  // ---------------------------------------------------------------------------------------
  // The slot is not preemptible.
  // ---------------------------------------------------------------------------------------

  lemma LifetimeStep(tr: seq<Event>, k: nat, id: nat, limits: PerClass<nat>)
    requires Legal(tr, limits) && k < |tr|
    ensures var b, r := BoardBefore(tr, k, limits), BoardBefore(tr, k + 1, limits);
            && (tr[k].OperationBegan? && tr[k].id == id ==>
                  r.current == Some(id) && r.phase == Live && id < |r.tickets| && !Waiting(r, id))
            && (b.current == Some(id) && b.phase == Live ==>
                  (r.current == Some(id) && r.phase == Live) || (tr[k].OperationEnded? && tr[k].id == id))
            && (id < |b.tickets| && !Waiting(b, id) && (b.current == Some(id) ==> b.phase != NotBegun) ==>
                  id < |r.tickets| && !Waiting(r, id) && (r.current == Some(id) ==> r.phase != NotBegun))
  {
    Advance(tr, k, limits);
    OneStepFate(BoardBefore(tr, k, limits), tr[k], id, limits);
  }

  lemma {:induction false} LifetimeRuns(tr: seq<Event>, a: nat, m: nat, limits: PerClass<nat>)
    requires Legal(tr, limits) && a < m <= |tr| && tr[a].OperationBegan?
    ensures var b := BoardBefore(tr, m, limits);
            || (b.current == Some(tr[a].id) && b.phase == Live)
            || exists k :: a < k < m && tr[k].OperationEnded? && tr[k].id == tr[a].id
    ensures var b := BoardBefore(tr, m, limits);
            && tr[a].id < |b.tickets| && !Waiting(b, tr[a].id)
            && (b.current == Some(tr[a].id) ==> b.phase != NotBegun)
    decreases m
  {
    if m > a + 1 {
      LifetimeRuns(tr, a, m - 1, limits);
    }
    LifetimeStep(tr, m - 1, tr[a].id, limits);
  }

  /** Two operations never overlap: the earlier one has ended, in time as well as in order,
      before the later one begins, and no job's operation runs twice. */
  lemma OperationsNeverOverlap(tr: seq<Event>, a: nat, b: nat, limits: PerClass<nat>)
    requires Legal(tr, limits) && a < b < |tr|
    requires tr[a].OperationBegan? && tr[b].OperationBegan?
    ensures tr[a].id != tr[b].id
    ensures exists k :: a < k < b && tr[k].OperationEnded? && tr[k].id == tr[a].id
                        && tr[a].at <= tr[k].at <= tr[b].at
  {
    hide Replay, Legal, BoardBefore, BoardOk, Waiting;
    LifetimeRuns(tr, a, b, limits);
    Advance(tr, b, limits);
    var k :| a < k < b && tr[k].OperationEnded? && tr[k].id == tr[a].id;
    Advance(tr, a, limits);
    Advance(tr, k, limits);
    TicketsOnlyGrow(tr, a + 1, k, limits);
    TicketsOnlyGrow(tr, k + 1, b, limits);
  }

  // ---------------------------------------------------------------------------------------
  // Shutdown.
  // ---------------------------------------------------------------------------------------

  lemma {:induction false} StaysStopped(tr: seq<Event>, a: nat, m: nat, limits: PerClass<nat>)
    requires Legal(tr, limits) && a < m <= |tr| && tr[a].Stopped?
    ensures BoardBefore(tr, m, limits).stopped
    ensures var c := BoardBefore(tr, m, limits).current;
            c == BoardBefore(tr, a, limits).current || c == None
    decreases m
  {
    Advance(tr, m - 1, limits);
    if m > a + 1 {
      StaysStopped(tr, a, m - 1, limits);
    }
  }

  /** After shutdown nothing is admitted, dispatched or withdrawn; every later event other
      than a repeated shutdown belongs to the job that was already running. */
  lemma NothingNewAfterShutdown(tr: seq<Event>, a: nat, b: nat, limits: PerClass<nat>)
    requires Legal(tr, limits) && a < b < |tr| && tr[a].Stopped?
    ensures tr[b].Stopped? || tr[b].OperationBegan? || tr[b].OperationEnded? || tr[b].Released?
    ensures !tr[b].Stopped? ==> BoardBefore(tr, a, limits).current == Some(tr[b].id)
  {
    StaysStopped(tr, a, b, limits);
    Advance(tr, b, limits);
  }
}
