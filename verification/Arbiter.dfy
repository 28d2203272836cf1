/** The invocation arbiter: a durable ticket lock with expiring queue entries, fencing epochs
    and a session epoch that changes only under the newest live lease.

    Each function below is the closure one `mutate` call applies to the state it has read
    under the state lock; `Persist` is the write that follows. */
module Arbiter {
  import opened Prelude

  datatype Entry = Entry(requestId: Id, ticket: int, expiresAt: int)

  datatype Lease = Lease(requestId: Id, fence: int, expiresAt: int)

  datatype Session = Session(epoch: int, binding: Option<Id>)

  datatype State = State(
    revision: int, nextTicket: int, nextFence: int, session: Session, queue: seq<Entry>, active: Option<Lease>)

  datatype Error = Busy | Fenced | AccountChanged | Invalid

  datatype Reply = Ticket(ticket: int) | Granted(fence: int, session: Session) | Waiting | Snapshot(session: Session)

  datatype Outcome = Outcome(state: State, reply: Result<Reply, Error>)

  const MAX_QUEUE := 1000

  const EMPTY := State(0, 1, 1, Session(0, None), [], None)

  predicate SafePositive(n: int) {
    1 <= n <= MAX_SAFE_INTEGER
  }

  /** Request ids and tickets of the entries are pairwise distinct and tickets are in range. */
  predicate ValidQueue(queue: seq<Entry>) {
    queue == [] ||
    var front, last := queue[..|queue| - 1], queue[|queue| - 1];
    && ValidQueue(front)
    && SafePositive(last.ticket)
    && forall e :: e in front ==> e.requestId != last.requestId && e.ticket != last.ticket
  }

  predicate ValidState(s: State) {
    && 0 <= s.revision <= MAX_SAFE_INTEGER
    && SafePositive(s.nextTicket)
    && SafePositive(s.nextFence)
    && 0 <= s.session.epoch <= MAX_SAFE_INTEGER
    && |s.queue| <= MAX_QUEUE
    && ValidQueue(s.queue)
    && (s.active.Some? ==> SafePositive(s.active.value.fence))
  }

  /** Bump the revision and write, unless the new state would not be valid. */
  function Persist(before: State, after: State, reply: Reply): Outcome {
    var next := after.(revision := after.revision + 1);
    if ValidState(next) then Outcome(next, Ok(reply)) else Outcome(before, Err(Invalid))
  }

  function Unexpired(queue: seq<Entry>, now: int): (r: seq<Entry>)
    ensures forall e :: e in r <==> e in queue && e.expiresAt > now
    ensures |r| <= |queue|
  {
    Filter(queue, (e: Entry) => e.expiresAt > now)
  }

  function Without(queue: seq<Entry>, requestId: Id): (r: seq<Entry>)
    ensures forall e :: e in r <==> e in queue && e.requestId != requestId
    ensures |r| <= |queue|
  {
    Filter(queue, (e: Entry) => e.requestId != requestId)
  }

  predicate Live(active: Option<Lease>, now: int) {
    active.Some? && active.value.expiresAt > now
  }

  function Prune(s: State, now: int): State {
    s.(queue := Unexpired(s.queue, now), active := if Live(s.active, now) then s.active else None)
  }

  /** The entry with the smallest ticket, found by a left-to-right scan. */
  function First(queue: seq<Entry>): Option<Entry> {
    if queue == [] then
      None
    else
      var best, last := First(queue[..|queue| - 1]), queue[|queue| - 1];
      if best.None? || last.ticket < best.value.ticket then Some(last) else best
  }

  predicate Expected(s: State, expected: Option<Session>) {
    expected.Some? ==> s.session == expected.value
  }

  function Enqueue(s: State, requestId: Id, deadline: int, now: int): Outcome {
    var p := Prune(s, now);
    if |p.queue| >= MAX_QUEUE then
      Outcome(s, Err(Busy))
    else
      Persist(s, p.(nextTicket := p.nextTicket + 1, queue := p.queue + [Entry(requestId, p.nextTicket, deadline)]),
              Ticket(p.nextTicket))
  }

  predicate Queued(queue: seq<Entry>, requestId: Id, ticket: int) {
    exists e :: e in queue && e.requestId == requestId && e.ticket == ticket
  }

  function TryGrant(
    s: State, requestId: Id, ticket: int, leaseMs: nat, expected: Option<Session>, now: int): Outcome
  {
    var p := Prune(s, now);
    if !Queued(p.queue, requestId, ticket) then
      Outcome(s, Err(Busy))
    else
      var first := First(p.queue);
      if p.active.Some? || first.None? || first.value.requestId != requestId then
        Persist(s, p, Waiting)
      else if !Expected(p, expected) then
        Outcome(s, Err(AccountChanged))
      else
        Persist(s, p.(nextFence := p.nextFence + 1,
                      queue := Without(p.queue, requestId),
                      active := Some(Lease(requestId, p.nextFence, now + leaseMs))),
                Granted(p.nextFence, p.session))
  }

  function RemoveQueued(s: State, requestId: Id): Outcome {
    Persist(s, s.(queue := Without(s.queue, requestId)), Waiting)
  }

  predicate Holds(s: State, requestId: Id, fence: int) {
    s.active.Some? && s.active.value.requestId == requestId && s.active.value.fence == fence
  }

  /** A heartbeat does not look at the expiry: it revives a lease nobody has pruned yet. */
  function Refresh(s: State, requestId: Id, fence: int, leaseMs: nat, expected: Option<Session>, now: int): Outcome {
    if !Holds(s, requestId, fence) then
      Outcome(s, Err(Fenced))
    else if !Expected(s, expected) then
      Outcome(s, Err(AccountChanged))
    else
      Persist(s, s.(active := Some(s.active.value.(expiresAt := now + leaseMs))), Waiting)
  }

  function Release(s: State, requestId: Id, fence: int): Outcome {
    Persist(s, if Holds(s, requestId, fence) then s.(active := None) else s, Waiting)
  }

  /** `assertCurrent`: a read, nothing is written. */
  function AssertCurrent(s: State, requestId: Id, fence: int, expected: Option<Session>, now: int): Result<Reply, Error> {
    if !Holds(s, requestId, fence) || !Live(s.active, now) then Err(Fenced)
    else if !Expected(s, expected) then Err(AccountChanged)
    else Ok(Waiting)
  }

  predicate LeaseState(s: State, fence: int, now: int) {
    Live(s.active, now) && s.active.value.fence == fence
  }

  function CommitSession(s: State, fence: int, binding: Option<Id>, now: int): Outcome {
    if !LeaseState(s, fence, now) then
      Outcome(s, Err(Fenced))
    else
      var session := if s.session.binding != binding then Session(s.session.epoch + 1, binding) else s.session;
      Persist(s, s.(session := session), Snapshot(session))
  }

  function AdvanceSession(s: State, fence: int, now: int): Outcome {
    if !LeaseState(s, fence, now) then
      Outcome(s, Err(Fenced))
    else
      var session := Session(s.session.epoch + 1, None);
      Persist(s, s.(session := session), Snapshot(session))
  }

  /** The gate recovery applies to a left-over backup and the primary beside it. */
  predicate Gate(previous: State, current: State) {
    if current.revision < previous.revision then false
    else if current.revision == previous.revision then current == previous
    else
      && previous.nextTicket <= current.nextTicket
      && previous.nextFence <= current.nextFence
      && previous.session.epoch <= current.session.epoch
      && (previous.session.epoch == current.session.epoch ==> previous.session.binding == current.session.binding)
  }

  // ---- The state file -------------------------------------------------------------------

  /** The arbiter's state file. Each method is one critical section: read, update, write. */
  class StateFile {
    var state: State

    constructor ()
      ensures state == EMPTY
    {
      state := EMPTY;
    }

    /** The `reduce` of `acquire`. */
    method ScanFirst(queue: seq<Entry>) returns (best: Option<Entry>)
      ensures best == First(queue)
      ensures best.None? <==> queue == []
      ensures best.Some? ==> best.value in queue && forall e :: e in queue ==> best.value.ticket <= e.ticket
    {
      best := None;
      for i := 0 to |queue|
        invariant best == First(queue[..i])
        invariant best.None? <==> i == 0
        invariant best.Some? ==> best.value in queue && forall j :: 0 <= j < i ==> best.value.ticket <= queue[j].ticket
      {
        assert queue[..i + 1][..i] == queue[..i];
        if best.None? || queue[i].ticket < best.value.ticket { best := Some(queue[i]); }
      }
      assert queue[..|queue|] == queue;
    }

    method Write(next: State, reply: Reply) returns (result: Result<Reply, Error>)
      modifies this
      ensures Outcome(state, result) == Persist(old(state), next, reply)
    {
      var bumped := next.(revision := next.revision + 1);
      if !ValidState(bumped) { return Err(Invalid); }
      state := bumped;
      return Ok(reply);
    }

    method JoinQueue(requestId: Id, deadline: int, now: int) returns (result: Result<Reply, Error>)
      modifies this
      ensures Outcome(state, result) == Enqueue(old(state), requestId, deadline, now)
    {
      var draft := Prune(state, now);
      if |draft.queue| >= MAX_QUEUE { return Err(Busy); }
      var ticket := draft.nextTicket;
      draft := draft.(nextTicket := ticket + 1);
      draft := draft.(queue := draft.queue + [Entry(requestId, ticket, deadline)]);
      result := Write(draft, Ticket(ticket));
    }

    method Poll(requestId: Id, ticket: int, leaseMs: nat, expected: Option<Session>, now: int)
      returns (result: Result<Reply, Error>)
      modifies this
      ensures Outcome(state, result) == TryGrant(old(state), requestId, ticket, leaseMs, expected, now)
    {
      var draft := Prune(state, now);
      if !Queued(draft.queue, requestId, ticket) { return Err(Busy); }
      var first := ScanFirst(draft.queue);
      if draft.active.Some? || first.None? || first.value.requestId != requestId {
        result := Write(draft, Waiting);
        return;
      }
      if !Expected(draft, expected) { return Err(AccountChanged); }
      var fence := draft.nextFence;
      draft := draft.(nextFence := fence + 1);
      draft := draft.(queue := Without(draft.queue, requestId));
      draft := draft.(active := Some(Lease(requestId, fence, now + leaseMs)));
      result := Write(draft, Granted(fence, draft.session));
    }

    method Heartbeat(requestId: Id, fence: int, leaseMs: nat, expected: Option<Session>, now: int)
      returns (result: Result<Reply, Error>)
      modifies this
      ensures Outcome(state, result) == Refresh(old(state), requestId, fence, leaseMs, expected, now)
    {
      if !Holds(state, requestId, fence) { return Err(Fenced); }
      if !Expected(state, expected) { return Err(AccountChanged); }
      result := Write(state.(active := Some(state.active.value.(expiresAt := now + leaseMs))), Waiting);
    }

    method Leave(requestId: Id, fence: int) returns (result: Result<Reply, Error>)
      modifies this
      ensures Outcome(state, result) == Release(old(state), requestId, fence)
    {
      var draft := state;
      if Holds(draft, requestId, fence) { draft := draft.(active := None); }
      result := Write(draft, Waiting);
    }

    method Abandon(requestId: Id) returns (result: Result<Reply, Error>)
      modifies this
      ensures Outcome(state, result) == RemoveQueued(old(state), requestId)
    {
      result := Write(state.(queue := Without(state.queue, requestId)), Waiting);
    }

    method BindSession(fence: int, binding: Option<Id>, now: int) returns (result: Result<Reply, Error>)
      modifies this
      ensures Outcome(state, result) == CommitSession(old(state), fence, binding, now)
    {
      if !LeaseState(state, fence, now) { return Err(Fenced); }
      var draft := state;
      if draft.session.binding != binding {
        draft := draft.(session := Session(draft.session.epoch + 1, binding));
      }
      result := Write(draft, Snapshot(draft.session));
    }

    method NextSession(fence: int, now: int) returns (result: Result<Reply, Error>)
      modifies this
      ensures Outcome(state, result) == AdvanceSession(old(state), fence, now)
    {
      if !LeaseState(state, fence, now) { return Err(Fenced); }
      var draft := state.(session := Session(state.session.epoch + 1, None));
      result := Write(draft, Snapshot(draft.session));
    }
  }
}
