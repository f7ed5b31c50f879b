/** The scheduler's history as a list of events, the board a reader would draw from it,
    and what every legal history guarantees: no overtaking of protected work, FIFO inside a
    class, one fate per job, one operation at a time, nothing new after shutdown. */
module DispatchBoard {
  import opened Common

  datatype Priority = Protected | Background

  datatype PerClass<T> = PerClass(first: T, second: T) {
    function At(p: Priority): T {
      if p.Protected? then first else second
    }

    function With(p: Priority, v: T): (r: PerClass<T>)
      ensures r.At(p) == v
      ensures forall o :: o != p ==> r.At(o) == At(o)
    {
      if p.Protected? then PerClass(v, second) else PerClass(first, v)
    }
  }

  /** Every event carries the instant at which its critical section ran. */
  datatype Event =
    | Admitted(id: nat, ticket: Ticket, at: real)
    | Dispatched(id: nat, at: real)
    | Expired(id: nat, at: real)
    | Removed(id: nat, at: real)
    | OperationBegan(id: nat, at: real)
    | OperationEnded(id: nat, at: real)
    | Released(id: nat, at: real)
    | Stopped(at: real)

  datatype Ticket = Ticket(priority: Priority, queueDeadline: real)

  datatype OperationPhase = NotBegun | Live | Ended

  datatype Board = Board(
    tickets: seq<Ticket>,
    queues: PerClass<seq<nat>>,
    current: Option<nat>,
    phase: OperationPhase,
    stopped: bool,
    clock: real)

  function EmptyBoard(): Board {
    Board([], PerClass([], []), None, NotBegun, false, 0.0)
  }

  function Held(b: Board, p: Priority): nat
    requires b.current.Some? ==> b.current.value < |b.tickets|
  {
    |b.queues.At(p)| + if b.current.Some? && b.tickets[b.current.value].priority == p then 1 else 0
  }

  /** `id` waits in the queue of its own class. */
  predicate Waiting(b: Board, id: nat) {
    id < |b.tickets| && id in b.queues.At(b.tickets[id].priority)
  }

  /** A class's queue holds its own jobs, oldest admission first. */
  ghost predicate QueueOk(q: seq<nat>, p: Priority, tickets: seq<Ticket>) {
    && Ascending(q)
    && forall i :: 0 <= i < |q| ==> q[i] < |tickets| && tickets[q[i]].priority == p
  }

  ghost predicate BoardOk(b: Board, limits: PerClass<nat>) {
    && QueueOk(b.queues.first, Protected, b.tickets)
    && QueueOk(b.queues.second, Background, b.tickets)
    && (b.current.Some? ==> b.current.value < |b.tickets| && !Waiting(b, b.current.value))
    && (b.current.None? ==> b.phase == NotBegun)
    && Held(b, Protected) <= limits.first
    && Held(b, Background) <= limits.second
    && (b.stopped ==> b.queues == PerClass([], []))
  }

  predicate Allowed(b: Board, e: Event, limits: PerClass<nat>)
    requires b.current.Some? ==> b.current.value < |b.tickets|
  {
    && b.clock <= e.at
    && match e
       case Admitted(id, ticket, _) =>
         !b.stopped && id == |b.tickets| && Held(b, ticket.priority) < limits.At(ticket.priority)
       case Dispatched(id, at) =>
         && b.current.None?
         && Waiting(b, id)
         && b.queues.At(b.tickets[id].priority)[0] == id
         && (b.tickets[id].priority.Background? ==> b.queues.At(Protected) == [])
         && at < b.tickets[id].queueDeadline
       case Expired(id, at) => Waiting(b, id) && b.tickets[id].queueDeadline <= at
       case Removed(id, _) => Waiting(b, id)
       case OperationBegan(id, _) => b.current == Some(id) && b.phase == NotBegun
       case OperationEnded(id, _) => b.current == Some(id) && b.phase == Live
       case Released(id, _) => b.current == Some(id) && b.phase == Ended
       // Shutdown withdraws every waiting job before its critical section ends.
       case Stopped(_) => b.queues == PerClass([], [])
  }

  function Play(b: Board, e: Event, limits: PerClass<nat>): (r: Board)
    requires b.current.Some? ==> b.current.value < |b.tickets|
    requires Allowed(b, e, limits)
    ensures r.current.Some? ==> r.current.value < |r.tickets|
  {
    var t := b.(clock := e.at);
    match e
    case Admitted(id, ticket, _) =>
      t.(tickets := b.tickets + [ticket],
         queues := b.queues.With(ticket.priority, b.queues.At(ticket.priority) + [id]))
    case Dispatched(id, _) =>
      var p := b.tickets[id].priority;
      t.(queues := b.queues.With(p, b.queues.At(p)[1..]), current := Some(id), phase := NotBegun)
    case Expired(id, _) => Leave(t, id)
    case Removed(id, _) => Leave(t, id)
    case OperationBegan(_, _) => t.(phase := Live)
    case OperationEnded(_, _) => t.(phase := Ended)
    case Released(_, _) => t.(current := None, phase := NotBegun)
    case Stopped(_) => t.(stopped := true)
  }

  function Leave(b: Board, id: nat): Board
    requires Waiting(b, id)
  {
    var p := b.tickets[id].priority;
    b.(queues := b.queues.With(p, Without(b.queues.At(p), id)))
  }

  /** Some board explains the whole history, every event being allowed when it happened. */
  ghost function Replay(tr: seq<Event>, limits: PerClass<nat>): (r: Option<Board>)
    ensures r.Some? && r.value.current.Some? ==> r.value.current.value < |r.value.tickets|
  {
    if tr == [] then Some(EmptyBoard()) else
    var before := Replay(tr[..|tr| - 1], limits);
    var e := tr[|tr| - 1];
    if before.Some? && Allowed(before.value, e, limits) then Some(Play(before.value, e, limits)) else None
  }

  ghost predicate Legal(tr: seq<Event>, limits: PerClass<nat>) {
    Replay(tr, limits).Some?
  }

  lemma ReplaySnoc(tr: seq<Event>, e: Event, limits: PerClass<nat>)
    requires Legal(tr, limits) && Allowed(Replay(tr, limits).value, e, limits)
    ensures Replay(tr + [e], limits) == Some(Play(Replay(tr, limits).value, e, limits))
  {
    assert (tr + [e])[..|tr|] == tr;
  }

  lemma {:induction false} LegalPrefix(tr: seq<Event>, k: nat, limits: PerClass<nat>)
    requires Legal(tr, limits) && k <= |tr|
    ensures Legal(tr[..k], limits)
  {
    if k == |tr| {
      assert tr[..k] == tr;
    } else {
      LegalPrefix(tr[..|tr| - 1], k, limits);
      assert tr[..|tr| - 1][..k] == tr[..k];
    }
  }

  /** What the board before event `k` allowed. */
  lemma LegalAt(tr: seq<Event>, k: nat, limits: PerClass<nat>)
    requires Legal(tr, limits) && k < |tr|
    ensures Legal(tr[..k], limits) && Legal(tr[..k + 1], limits)
    ensures Allowed(Replay(tr[..k], limits).value, tr[k], limits)
    ensures Replay(tr[..k + 1], limits).value == Play(Replay(tr[..k], limits).value, tr[k], limits)
  {
    LegalPrefix(tr, k + 1, limits);
    LegalPrefix(tr, k, limits);
    assert tr[..k + 1][..k] == tr[..k];
  }

  lemma WithoutKeepsQueueOk(q: seq<nat>, id: nat, p: Priority, tickets: seq<Ticket>)
    requires QueueOk(q, p, tickets) && id in q
    ensures QueueOk(Without(q, id), p, tickets)
    ensures forall y :: y in Without(q, id) <==> y in q && y != id
  {
    WithoutAscending(q, id);
    var r := Without(q, id);
    forall i | 0 <= i < |r|
      ensures r[i] < |tickets| && tickets[r[i]].priority == p
    {
      assert r[i] in q;
    }
  }

  lemma LeaveKeepsOk(b: Board, id: nat, limits: PerClass<nat>)
    requires BoardOk(b, limits) && Waiting(b, id)
    ensures BoardOk(Leave(b, id), limits)
    ensures forall other :: Waiting(Leave(b, id), other) <==> Waiting(b, other) && other != id
  {
    var p := b.tickets[id].priority;
    WithoutKeepsQueueOk(b.queues.At(p), id, p, b.tickets);
  }

  lemma DispatchKeepsOk(b: Board, e: Event, limits: PerClass<nat>)
    requires BoardOk(b, limits) && e.Dispatched? && Allowed(b, e, limits)
    ensures BoardOk(Play(b, e, limits), limits)
    ensures forall other :: Waiting(Play(b, e, limits), other) <==> Waiting(b, other) && other != e.id
  {
    var p := b.tickets[e.id].priority;
    var q := b.queues.At(p);
    assert IndexOf(q, e.id) == 0;
    assert Without(q, e.id) == q[1..];
    WithoutKeepsQueueOk(q, e.id, p, b.tickets);
  }

  lemma AppendKeepsQueueOk(q: seq<nat>, p: Priority, tickets: seq<Ticket>, ticket: Ticket)
    requires QueueOk(q, p, tickets)
    ensures QueueOk(q, p, tickets + [ticket])
    ensures ticket.priority == p ==> QueueOk(q + [|tickets|], p, tickets + [ticket])
    ensures forall y :: y in q + [|tickets|] <==> y in q || y == |tickets|
  {
    var r := q + [|tickets|];
    assert forall i, j :: 0 <= i < j < |q| ==> r[i] == q[i] && r[j] == q[j];
    assert forall i :: 0 <= i < |q| ==> q[i] < |tickets|;
    assert r[|q|] == |tickets|;
  }

  lemma AdmitKeepsOk(b: Board, e: Event, limits: PerClass<nat>)
    requires BoardOk(b, limits) && e.Admitted? && Allowed(b, e, limits)
    ensures BoardOk(Play(b, e, limits), limits)
    ensures forall other :: Waiting(Play(b, e, limits), other) <==> Waiting(b, other) || other == e.id
  {
    AppendKeepsQueueOk(b.queues.first, Protected, b.tickets, e.ticket);
    AppendKeepsQueueOk(b.queues.second, Background, b.tickets, e.ticket);
    forall other: nat
      ensures Waiting(Play(b, e, limits), other) <==> Waiting(b, other) || other == e.id
    {
      if other < |b.tickets| {
        assert (b.tickets + [e.ticket])[other] == b.tickets[other];
      }
    }
  }

  lemma PlayKeepsOk(b: Board, e: Event, limits: PerClass<nat>)
    requires BoardOk(b, limits) && Allowed(b, e, limits)
    ensures BoardOk(Play(b, e, limits), limits)
  {
    match e
    case Admitted(_, _, _) => AdmitKeepsOk(b, e, limits);
    case Dispatched(_, _) => DispatchKeepsOk(b, e, limits);
    case Expired(id, at) => LeaveKeepsOk(b.(clock := at), id, limits);
    case Removed(id, at) => LeaveKeepsOk(b.(clock := at), id, limits);
    case Released(_, _) =>
    case OperationBegan(_, _) =>
    case OperationEnded(_, _) =>
    case Stopped(_) =>
  }

  /** Board invariants of every legal history, capacity included. */
  lemma {:induction false} LegalBoardOk(tr: seq<Event>, limits: PerClass<nat>)
    requires Legal(tr, limits)
    ensures BoardOk(Replay(tr, limits).value, limits)
  {
    if tr != [] {
      var k := |tr| - 1;
      LegalBoardOk(tr[..k], limits);
      PlayKeepsOk(Replay(tr[..k], limits).value, tr[k], limits);
    }
  }
}
