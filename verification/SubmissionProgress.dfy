/** What the submission protocol achieves: free slots are usable, tasks are served in the order they
    were queued, no more jobs are open at the provider than the limit, and a submission that meets
    no obstacle ends with its receipt. */
module SubmissionProgress {
  import opened Prelude
  import opened TaskContract
  import opened JournalRecord
  import opened Journal
  import opened QueueOrder
  import opened RuntimeSteps
  import opened RuntimeGate
  import opened RuntimeEffects
  import opened RecordSteps
  import opened SubmissionProtocol
  import opened SubmissionSafety
  import opened SubmissionHistory

  // ---- Open jobs ---------------------------------------------------------------------------------------

  /** The provider's outcome is on record, or the record promises that there is no job. */
  predicate Closed(r: Record) {
    r.state == Succeeded || r.state == Failed || r.state == Cancelled || r.state == Deleted
  }

  /** Keys for which the provider process may be running, or its job may be open. */
  ghost function OpenJobs(w: World): set<Id> {
    set id | id in w.attempts && MaySpawn(w.attempts[id]) && w.attempts[id].claim.key in w.journal.records
             && !Closed(w.journal.records[w.attempts[id].claim.key]) :: w.attempts[id].claim.key
  }

  /** Every open job is on record and holds one of the slots, so there are never more than the limit. */
  lemma {:induction false} OpenJobsAreBounded(now: int, maxActive: nat, actions: seq<Action>)
    ensures
      var w := Run(Init(now, maxActive), actions);
      && (forall id :: id in w.attempts && MaySpawn(w.attempts[id]) ==> w.attempts[id].claim.key in w.journal.records)
      && OpenJobs(w) <= Slots(w.journal)
      && |OpenJobs(w)| <= maxActive
  {
    hide Run;
    var w := Run(Init(now, maxActive), actions);
    InitInv(now, maxActive);
    RunKeepsInv(Init(now, maxActive), actions);
    forall id | id in w.attempts && MaySpawn(w.attempts[id])
      ensures w.attempts[id].claim.key in w.journal.records
      ensures Closed(w.journal.records[w.attempts[id].claim.key]) || w.attempts[id].claim.key in Slots(w.journal)
    {
      assert Guarded(w.journal, w.attempts[id]);
    }
    SubsetSize(OpenJobs(w), Slots(w.journal));
    SlotsAreConserved(now, maxActive, actions);
  }

  // ---- Order of service ------------------------------------------------------------------------------------

  /** The first entry of a non-empty set of queued records. */
  lemma FirstInLine(j: Journal, s: set<Id>) returns (k: Id)
    requires TicketsDiffer(j) && s != {} && s <= j.records.Keys
    ensures k in s && forall p :: p in s && p != k ==> Before(j.records, k, p)
    decreases |s|
  {
    k :| k in s;
    if s != {k} {
      var first := FirstInLine(j, s - {k});
      OrderIsTotalExactlyWhenTicketsDiffer(j);
      if !Before(j.records, k, first) {
        k := first;
      } else {
        forall p | p in s && p != k ensures Before(j.records, k, p) {
          if p != first {
            OrderIsTransitive(j.records, k, first, p);
          }
        }
      }
    }
  }

  /** A free slot is never held back: while tasks are waiting, one of them may take it. */
  lemma FreeSlotIsUsable(j: Journal, now: int, maxActive: nat)
    requires TicketsDiffer(j) && LiveQueue(j, now) != {} && |Slots(j)| < maxActive
    ensures exists k :: k in j.records && HasPriority(j, now, k, maxActive)
  {
    var k := FirstInLine(j, LiveQueue(j, now));
    assert Predecessors(j, now, k) == {} by {
      forall p | p in Predecessors(j, now, k) ensures false {
        OrderIsTransitive(j.records, p, k, p);
      }
    }
    assert HasPriority(j, now, k, maxActive);
  }

  /** Tickets decide: the lower one is served first, and records from before tickets even earlier. */
  lemma LowerTicketGoesFirst(records: map<Id, Record>, a: Id, b: Id)
    requires a in records && b in records && records[b].queueTicket.Some?
    ensures Before(records, a, b) <==>
      records[a].queueTicket.None? || records[a].queueTicket.value < records[b].queueTicket.value
  {
  }

  lemma {:induction false} HandedStays(w: World, actions: seq<Action>)
    ensures w.handed <= Run(w, actions).handed
    decreases |actions|
  {
    hide Effect;
    if actions != [] {
      HandedStays(Step(w, actions[0]), actions[1..]);
    }
  }

  /** A queued record with the ticket it was given, as long as it waits. */
  lemma {:induction false} TicketStays(w: World, actions: seq<Action>, key: Id, ticket: int)
    requires Inv(w) && PresentThroughout(w, actions, key)
    requires w.journal.records[key].state == Queued && w.journal.records[key].queueLease.Some?
    requires w.journal.records[key].queueTicket == Some(ticket)
    ensures
      var v := Run(w, actions);
      && key in v.journal.records
      && (v.journal.records[key].state == Queued ==> v.journal.records[key].queueTicket == Some(ticket))
  {
    HistorySucceeds(w, actions, key);
  }

  /** The step queues this key. */
  ghost predicate Queues(w: World, a: Action, key: Id) {
    a.DoEnqueue? && a.key == key && Enabled(w, a) && Effect(w, a).Ok?
  }

  lemma QueuedIsStored(w: World, a: Action, key: Id)
    requires Queues(w, a, key)
    ensures
      var v := Step(w, a);
      && key in v.journal.records && v.handed == w.handed + [LoadedTicket(w.journal)]
      && var r := v.journal.records[key];
      && r.state == Queued && r.queueLease.Some? && r.queueTicket == Some(LoadedTicket(w.journal))
      && r.requestHash == a.requestHash && r.task == Some(a.task)
  {
    hide Effect;
    EnqueueStep(w, a);
  }

  lemma {:induction false} LaterTicketIsHigher(w: World, actions: seq<Action>, ticket: int)
    requires Inv(w) && ticket in w.handed
    ensures ticket < LoadedTicket(Run(w, actions).journal)
  {
    hide Run;
    HandedStays(w, actions);
    RunKeepsInv(w, actions);
    var v := Run(w, actions);
    var i :| 0 <= i < |w.handed| && w.handed[i] == ticket;
    IncreasingBelow(v.handed, v.journal.nextTicket, i);
  }

  /** First come, first served, over whole runs: of two tasks that are still waiting, the one that
      was queued earlier stands before the other, whatever happened in between; and as long as it is
      alive, the later one never gets a slot that the earlier one could not get. */
  lemma {:induction false} FirstComeFirstServed(
    now: int, maxActive: nat, before: seq<Action>, a: Action, between: seq<Action>, b: Action, after: seq<Action>,
    first: Id, second: Id)
    requires Queues(Run(Init(now, maxActive), before), a, first)
    requires
      var w := Step(Run(Init(now, maxActive), before), a);
      && PresentThroughout(w, between, first)
      && Queues(Run(w, between), b, second)
      && PresentThroughout(Step(Run(w, between), b), after, first)
      && PresentThroughout(Step(Run(w, between), b), after, second)
    requires
      var v := Run(Step(Run(Step(Run(Init(now, maxActive), before), a), between), b), after);
      && first in v.journal.records && v.journal.records[first].state == Queued
      && second in v.journal.records && v.journal.records[second].state == Queued
    ensures
      var v := Run(Step(Run(Step(Run(Init(now, maxActive), before), a), between), b), after);
      && Before(v.journal.records, first, second)
      && (LiveQueueLease(v.journal.records[first], v.now) && HasPriority(v.journal, v.now, second, v.maxActive) ==>
            HasPriority(v.journal, v.now, first, v.maxActive))
  {
    hide Inv, Run, Step, Queues, HasPriority;
    var w0 := Run(Init(now, maxActive), before);
    InitInv(now, maxActive);
    RunKeepsInv(Init(now, maxActive), before);
    StepKeepsInv(w0, a);
    ServedInOrder(w0, a, between, b, after, first, second);
    var v := Run(Step(Run(Step(w0, a), between), b), after);
    if LiveQueueLease(v.journal.records[first], v.now) && HasPriority(v.journal, v.now, second, v.maxActive) {
      PriorityIsInherited(v.journal, v.now, second, first, v.maxActive);
    }
  }

  lemma PriorityIsInherited(j: Journal, now: int, key: Id, earlier: Id, maxActive: nat)
    requires key in j.records && earlier in j.records && HasPriority(j, now, key, maxActive)
    requires LiveQueueLease(j.records[earlier], now) && Before(j.records, earlier, key)
    ensures HasPriority(j, now, earlier, maxActive)
  {
    forall p | p in Predecessors(j, now, earlier) ensures p in Predecessors(j, now, key) {
      OrderIsTransitive(j.records, p, earlier, key);
    }
    SubsetSize(Predecessors(j, now, earlier), Predecessors(j, now, key));
  }

  lemma {:induction false} ServedInOrder(
    w0: World, a: Action, between: seq<Action>, b: Action, after: seq<Action>, first: Id, second: Id)
    requires Inv(w0) && Queues(w0, a, first)
    requires PresentThroughout(Step(w0, a), between, first) && Queues(Run(Step(w0, a), between), b, second)
    requires
      var u := Step(Run(Step(w0, a), between), b);
      PresentThroughout(u, after, first) && PresentThroughout(u, after, second)
    requires
      var v := Run(Step(Run(Step(w0, a), between), b), after);
      && first in v.journal.records && v.journal.records[first].state == Queued
      && second in v.journal.records && v.journal.records[second].state == Queued
    ensures Before(Run(Step(Run(Step(w0, a), between), b), after).journal.records, first, second)
  {
    hide Inv, Run, Step, Queues;
    var w, t := Step(w0, a), LoadedTicket(w0.journal);
    StepKeepsInv(w0, a);
    QueuedIsStored(w0, a, first);
    RunKeepsInv(w, between);
    var u := Run(w, between);
    StepKeepsInv(u, b);
    QueuedIsStored(u, b, second);
    LaterTicketIsHigher(w, between, t);
    PresentOn(w, between, b, after, first);
    TicketStays(w, between + [b] + after, first, t);
    RunJoins(w, between, b, after);
    TicketStays(Step(u, b), after, second, LoadedTicket(u.journal));
    LowerTicketGoesFirst(Run(Step(u, b), after).journal.records, first, second);
  }

  lemma {:induction false} RunJoins(w: World, between: seq<Action>, b: Action, after: seq<Action>)
    ensures Run(w, between + [b] + after) == Run(Step(Run(w, between), b), after)
    decreases |between|
  {
    hide Step;
    var all := between + [b] + after;
    if between == [] {
      assert all[0] == b && all[1..] == after;
    } else {
      assert all[0] == between[0] && all[1..] == between[1..] + [b] + after;
      RunJoins(Step(w, between[0]), between[1..], b, after);
    }
  }

  lemma {:induction false} PresentOn(w: World, between: seq<Action>, b: Action, after: seq<Action>, key: Id)
    requires PresentThroughout(w, between, key) && PresentThroughout(Step(Run(w, between), b), after, key)
    ensures PresentThroughout(w, between + [b] + after, key)
    decreases |between|
  {
    hide Step;
    var all := between + [b] + after;
    if between == [] {
      assert all[0] == b && all[1..] == after;
    } else {
      assert all[0] == between[0] && all[1..] == between[1..] + [b] + after;
      PresentOn(Step(w, between[0]), between[1..], b, after, key);
    }
  }

  // ---- A submission without obstacles ------------------------------------------------------------------------

  /** The steps of one process for one task, after it was queued. */
  function Submission(c: Claim, leaseMs: nat, fence: int, session: Option<Account>, submitId: Id): seq<Action> {
    [DoReserve(c, leaseMs), DoFence(c.reservationId, fence, session, leaseMs), DoSpawn(c.reservationId),
     DoAccept(c.reservationId, submitId, session, true)]
  }

  /** Room for `n` more writes. */
  ghost predicate RoomFor(j: Journal, n: nat) {
    && 1 <= LoadedTicket(j) < MAX_SAFE_INTEGER
    && forall k :: k in j.records ==> j.records[k].version + n <= MAX_SAFE_INTEGER
  }

  lemma WriteUsesRoom(j: Journal, k: Journal, key: Id, n: nat)
    requires RoomFor(j, n + 1) && OthersStay(j, k, key) && k.nextTicket == LoadedTicket(j)
    requires key in j.records && key in k.records && k.records[key].version <= j.records[key].version + 1
    requires k.records[key].queueTicket.None? || k.records[key].queueTicket == j.records[key].queueTicket
    ensures RoomFor(k, n)
  {
    assert IsLoadedTicket(k, LoadedTicket(j));
  }

  lemma ReservationLeavesRoom(j: Journal, c: Claim, now: int, leaseMs: nat, maxActive: nat, n: nat)
    requires ReserveSlot(j, c, now, leaseMs, maxActive).Ok? && ValidJournal(j) && RoomFor(j, n + 1)
    requires HasPriority(j, now, c.key, maxActive)
    ensures
      var k := ReserveSlot(j, c, now, leaseMs, maxActive).value;
      ValidJournal(k) && RoomFor(k, n)
  {
    hide WriteBack, HasPriority, ValidJournal, LoadedTicket;
    var r := ReservedRecord(j.records[c.key], c, now, leaseMs);
    WriteBackShape(j, c.key, r);
    WriteBackIsValid(j, c.key, r);
    WriteUsesRoom(j, ReserveSlot(j, c, now, leaseMs, maxActive).value, c.key, n);
  }

  lemma PermissionLeavesRoom(j: Journal, c: Claim, fence: int, session: Option<Account>, now: int, leaseMs: nat, n: nat)
    requires CommitFence(j, c, fence, session, now, leaseMs).Ok? && ValidJournal(j) && RoomFor(j, n + 1)
    ensures
      var k := CommitFence(j, c, fence, session, now, leaseMs).value;
      ValidJournal(k) && RoomFor(k, n)
  {
    hide WriteBack, ValidJournal, LoadedTicket;
    var r := FencedRecord(j.records[c.key], fence, session, now, leaseMs);
    WriteBackShape(j, c.key, r);
    WriteBackIsValid(j, c.key, r);
    WriteUsesRoom(j, CommitFence(j, c, fence, session, now, leaseMs).value, c.key, n);
  }

  /** What the fence and the session of an attempt must agree with. */
  predicate Compatible(r: Record, fence: int, session: Option<Account>) {
    && r.task.Some? && 1 <= fence <= MAX_SAFE_INTEGER
    && (session.Some? ==> 0 <= session.value.epoch <= MAX_SAFE_INTEGER)
    && (r.fence.Some? ==> r.fence.value <= fence)
    && (session.Some? && r.account.Some? ==>
          r.account.value.binding == session.value.binding && r.account.value.epoch <= session.value.epoch)
  }

  /** The record is reserved for the claim and carries what the queued one carried. */
  predicate ReservedFor(q: Record, r: Record, c: Claim, expiresAt: int) {
    && MatchesReservation(q, c) && q.reservation.expiresAt == expiresAt
    && q.task == r.task && q.fence == r.fence && q.account == r.account
  }

  /** The record permits the claim to spawn under this fence and session. */
  predicate PermittedUnder(q: Record, c: Claim, fence: int, session: Option<Account>) {
    && MatchesReservation(q, c) && q.reservation.phase == SpawnPermitted && q.fence == Some(fence)
    && (session.Some? ==> q.account == session) && q.task.Some?
  }

  lemma ReservationPasses(j: Journal, c: Claim, now: int, leaseMs: nat, maxActive: nat)
    requires ValidJournal(j) && RoomFor(j, 3) && c.key in j.records && HasPriority(j, now, c.key, maxActive)
    requires j.records[c.key].state == Queued && j.records[c.key].requestHash == c.requestHash
    ensures ReserveSlot(j, c, now, leaseMs, maxActive).Ok?
    ensures
      var k := ReserveSlot(j, c, now, leaseMs, maxActive).value;
      && ValidJournal(k) && RoomFor(k, 2) && c.key in k.records
      && ReservedFor(k.records[c.key], j.records[c.key], c, now + leaseMs)
  {
    hide HasPriority, ReserveSlot, LoadedTicket, ValidJournal;
    ReserveIsAccepted(j, c, now, leaseMs, maxActive);
    ReservationIsMade(j, c, now, leaseMs, maxActive);
    ReservationLeavesRoom(j, c, now, leaseMs, maxActive, 2);
  }

  lemma PermissionPasses(j: Journal, c: Claim, fence: int, session: Option<Account>, now: int, leaseMs: nat)
    requires ValidJournal(j) && RoomFor(j, 2) && c.key in j.records && MatchesReservation(j.records[c.key], c)
    requires now < j.records[c.key].reservation.expiresAt <= now + leaseMs
    requires Compatible(j.records[c.key], fence, session)
    ensures CommitFence(j, c, fence, session, now, leaseMs).Ok?
    ensures
      var k := CommitFence(j, c, fence, session, now, leaseMs).value;
      && ValidJournal(k) && RoomFor(k, 1) && c.key in k.records
      && PermittedUnder(k.records[c.key], c, fence, session)
  {
    hide CommitFence, LoadedTicket, ValidJournal;
    FenceExactly(j, c, fence, session, now, leaseMs);
    PermissionIsStored(j, c, fence, session, now, leaseMs);
    PermissionLeavesRoom(j, c, fence, session, now, leaseMs, 1);
  }

  /** The world in which one attempt is where it should be and the journal has room. */
  ghost predicate Underway(w: World, a: Attempt, room: nat) {
    && ValidJournal(w.journal) && RoomFor(w.journal, room) && w.lock.None?
    && a.claim.reservationId in w.attempts && w.attempts[a.claim.reservationId] == a
    && a.claim.key in w.journal.records
  }

  lemma ReserveHappens(w: World, c: Claim, leaseMs: nat)
    requires ValidJournal(w.journal) && RoomFor(w.journal, 3) && w.lock.None? && c.reservationId !in w.attempts
    requires GrantsSlot(w, DoReserve(c, leaseMs))
    ensures
      var v := Step(w, DoReserve(c, leaseMs));
      && Underway(v, Attempt(c, Holding, false, 0, false), 2) && v.now == w.now
      && ReservedFor(v.journal.records[c.key], w.journal.records[c.key], c, w.now + leaseMs)
  {
    hide HasPriority, ReserveSlot, RoomFor, ValidJournal, ReservedFor;
    ReservationPasses(w.journal, c, w.now, leaseMs, w.maxActive);
  }

  lemma FenceHappens(w: World, c: Claim, leaseMs: nat, fence: int, session: Option<Account>)
    requires Underway(w, Attempt(c, Holding, false, 0, false), 2) && MatchesReservation(w.journal.records[c.key], c)
    requires w.now < w.journal.records[c.key].reservation.expiresAt <= w.now + leaseMs
    requires Compatible(w.journal.records[c.key], fence, session)
    ensures
      var v := Step(w, DoFence(c.reservationId, fence, session, leaseMs));
      && Underway(v, Attempt(c, Permitted, false, fence, false), 1)
      && PermittedUnder(v.journal.records[c.key], c, fence, session)
  {
    hide CommitFence, RoomFor, ValidJournal, Compatible, PermittedUnder;
    PermissionPasses(w.journal, c, fence, session, w.now, leaseMs);
  }

  lemma SpawnHappens(w: World, c: Claim, fence: int)
    requires Underway(w, Attempt(c, Permitted, false, fence, false), 1)
    ensures
      var v := Step(w, DoSpawn(c.reservationId));
      Underway(v, Attempt(c, Permitted, true, fence, false), 1) && v.journal == w.journal
  {
    hide RoomFor, ValidJournal;
  }

  lemma AcceptHappens(w: World, c: Claim, fence: int, session: Option<Account>, submitId: Id)
    requires Underway(w, Attempt(c, Permitted, true, fence, false), 1)
    requires PermittedUnder(w.journal.records[c.key], c, fence, session)
    ensures
      var a := DoAccept(c.reservationId, submitId, session, true);
      && Brought(w, a, c.key, submitId)
      && c.reservationId in Step(w, a).attempts
      && Step(w, a).attempts[c.reservationId] == Attempt(c, Finished, true, fence, false)
  {
    hide CommitAccepted, LoadedTicket, ValidJournal;
    ReceiptIsAccepted(w.journal, c, fence, submitId, session, w.now);
  }

  lemma SameCompatible(r: Record, q: Record, c: Claim, expiresAt: int, fence: int, session: Option<Account>)
    requires Compatible(r, fence, session) && ReservedFor(q, r, c, expiresAt)
    ensures Compatible(q, fence, session)
  {
  }

  /** A queued task with priority, handled by a process that nobody disturbs, goes through: the
      process reserves, is permitted, spawns, and its receipt is on record. */
  lemma {:induction false} SubmissionGoesThrough(
    w: World, c: Claim, leaseMs: nat, fence: int, session: Option<Account>, submitId: Id)
    requires ValidJournal(w.journal) && RoomFor(w.journal, 3) && w.lock.None? && c.reservationId !in w.attempts
    requires c.key in w.journal.records && w.journal.records[c.key].state == Queued
    requires w.journal.records[c.key].requestHash == c.requestHash && 0 < leaseMs
    requires HasPriority(w.journal, w.now, c.key, w.maxActive)
    requires Compatible(w.journal.records[c.key], fence, session)
    ensures
      var v := Run(w, Submission(c, leaseMs, fence, session, submitId));
      && c.reservationId in v.attempts && v.attempts[c.reservationId] == Attempt(c, Finished, true, fence, false)
      && c.key in v.journal.records
      && v.journal.records[c.key].state == Accepted && v.journal.records[c.key].submitId == Some(submitId)
  {
    hide HasPriority, Step, Inv, ValidJournal, Compatible, RoomFor, PermittedUnder, Brought;
    var all := Submission(c, leaseMs, fence, session, submitId);
    var w1 := Step(w, all[0]);
    ReserveHappens(w, c, leaseMs);
    SameCompatible(w.journal.records[c.key], w1.journal.records[c.key], c, w.now + leaseMs, fence, session);
    var w2 := Step(w1, all[1]);
    FenceHappens(w1, c, leaseMs, fence, session);
    var w3 := Step(w2, all[2]);
    SpawnHappens(w2, c, fence);
    AcceptHappens(w3, c, fence, session, submitId);
    BroughtIsStored(w3, all[3], c.key, submitId);
    FourSteps(w, all);
  }

  lemma {:induction false} FourSteps(w: World, all: seq<Action>)
    requires |all| == 4
    ensures Run(w, all) == Step(Step(Step(Step(w, all[0]), all[1]), all[2]), all[3])
  {
    hide Step;
    assert all == [] + [all[0]] + [all[1]] + [all[2]] + [all[3]];
    RunMore(w, [], all[0]);
    RunMore(w, [all[0]], all[1]);
    RunMore(w, [all[0], all[1]], all[2]);
    RunMore(w, [all[0], all[1], all[2]], all[3]);
    assert all == [all[0], all[1], all[2]] + [all[3]];
    assert [all[0], all[1], all[2]] == [all[0], all[1]] + [all[2]];
    assert [all[0], all[1]] == [all[0]] + [all[1]];
    assert [all[0]] == [] + [all[0]];
  }

  // ---- Steps that end something --------------------------------------------------------------------------------

  /** Nothing is held back but what must wait: while nobody holds the lock, every step that belongs to
      no attempt can be taken; a step of an attempt needs only that it is where the step begins; and a
      process may crash at any time. */
  lemma NothingIsHeldBack(w: World, a: Action)
    requires w.lock.None?
    requires a.DoReserve? ==> a.claim.reservationId !in w.attempts
    requires a.DoRunBegin? ==> a.id !in w.attempts
    requires a.DoSpawn? || a.DoCrash? || a.DoFence? || a.DoAccept? || a.DoRenewReservation? || a.DoFail? ==>
      a.id in w.attempts && (a.DoCrash? || (w.attempts[a.id].stage != Finished && !w.attempts[a.id].viaRun))
    requires a.DoFence? ==> w.attempts[a.id].stage == Holding
    requires a.DoSpawn? ==> w.attempts[a.id].stage == Permitted && !w.attempts[a.id].spawned
    requires a.DoAccept? ==> w.attempts[a.id].stage == Permitted && w.attempts[a.id].spawned
    requires a.DoFailTask? || a.DoSyncError? ==> a.code != Interrupted
    requires !a.DoRunFence? && !a.DoRunAccept? && !a.DoRunAbandon?
    ensures Enabled(w, a)
  {
  }

  /** A crash ends the attempt and lets go of the lock; the journal stays as it is. */
  lemma CrashLetsGo(w: World, id: Id)
    requires id in w.attempts
    ensures
      var v := Step(w, DoCrash(id));
      && v.journal == w.journal && id in v.attempts && v.attempts[id] == w.attempts[id].(stage := Finished)
      && v.lock != Some(id)
  {
  }

  lemma CancelStep(w: World, key: Id)
    requires w.lock.None? && CancelTask(w.journal, key, w.now).Ok?
    ensures Step(w, DoCancel(key)).journal == CancelTask(w.journal, key, w.now).value
  {
    hide CancelTask, Written, Remember, NextLock;
  }

  lemma JournalIsValid(w: World)
    requires Inv(w)
    ensures ValidJournal(w.journal)
  {
  }

  lemma CancelHappens(j: Journal, key: Id, now: int)
    requires ValidJournal(j) && Room(j) && key in j.records && j.records[key].task.Some? && j.records[key].state == Queued
    ensures CancelTask(j, key, now).Ok?
    ensures
      var k := CancelTask(j, key, now).value;
      key in k.records && k.records[key].state == Cancelled && k.records[key].errorCode == Some(LocallyCancelled)
  {
    hide CancelTask, ValidJournal, Room;
    CancelIsAccepted(j, key, now);
    CancellationIsStored(j, key, now);
  }

  /** A task cancelled while it waits stays cancelled for good: nothing was spawned for it, and nothing
      ever will be, in any continuation. */
  lemma {:induction false} CancellationIsFinal(now: int, maxActive: nat, before: seq<Action>, key: Id, after: seq<Action>)
    requires
      var w := Run(Init(now, maxActive), before);
      && w.lock.None? && Room(w.journal)
      && key in w.journal.records && w.journal.records[key].task.Some? && w.journal.records[key].state == Queued
    ensures
      var v := Run(Step(Run(Init(now, maxActive), before), DoCancel(key)), after);
      && key in v.journal.records && NeverSpawned(v.journal.records[key])
      && (v.journal.records[key].state == Cancelled || v.journal.records[key].state == Deleted)
      && Unspawned(v, key)
  {
    hide Run, Step, Inv, Room, Unspawned, CancelTask, ValidJournal;
    var w := Run(Init(now, maxActive), before);
    InitInv(now, maxActive);
    RunKeepsInv(Init(now, maxActive), before);
    JournalIsValid(w);
    CancelHappens(w.journal, key, w.now);
    CancelStep(w, key);
    StepKeepsInv(w, DoCancel(key));
    var u := Step(w, DoCancel(key));
    SettledStays(u, after, key);
    HistorySucceeds(u, after, key);
    PromiseRun(u, after, key);
    PromiseMeansUnspawned(Run(u, after), key);
  }

  lemma PromiseMeansUnspawned(w: World, key: Id)
    requires Inv(w) && key in w.journal.records && NeverSpawned(w.journal.records[key])
    ensures Unspawned(w, key)
  {
    forall id | id in w.attempts && w.attempts[id].claim.key == key ensures !MaySpawn(w.attempts[id]) {
      assert MaySpawn(w.attempts[id]) ==> Guarded(w.journal, w.attempts[id]);
    }
  }

  /** After a recovery nothing is left behind by owners whose time is over: no reservation, no intent
      and no queue entry of a task outlives its lease. */
  lemma RecoveryLeavesNothingExpired(j: Journal, now: int, key: Id)
    requires Recover(j, now).Ok? && key in Recover(j, now).value.records
    ensures
      var r := Recover(j, now).value.records[key];
      && (r.state == Pending ==> r.reservation.Reservation? && now < r.reservation.expiresAt)
      && (r.state == Queued && r.task.Some? ==> r.queueLease.Some? && now < r.queueLease.value.expiresAt)
  {
    hide Writable, ValidJournal;
    RecoverySettles(j.records[key], now);
    assert NeedsRecovery(j.records[key], now) ==> AnyExpired(j.records, now);
  }

  // ---- What a process remembers --------------------------------------------------------------------------------

  /** The check that every reload makes against the remembered records, exactly: what a process has seen
      of records that stayed never contradicts the journal it finds later, so the check passes if and
      only if every remembered record is still there. */
  lemma {:induction false} MemoryIsCoherentExactly(
    now: int, maxActive: nat, before: seq<Action>, between: seq<Action>, memory: map<Id, Record>)
    requires
      var w := Run(Init(now, maxActive), before);
      forall key :: key in memory ==>
        && key in w.journal.records && memory[key] == w.journal.records[key]
        && (key in Run(w, between).journal.records ==> PresentThroughout(w, between, key))
    ensures
      var v := Run(Run(Init(now, maxActive), before), between);
      Coherent(memory, v.journal, v.now) <==> memory.Keys <= v.journal.records.Keys
  {
    hide Run, Step, Inv, PresentThroughout;
    var w := Run(Init(now, maxActive), before);
    var v := Run(w, between);
    forall key | key in memory && key in v.journal.records
      ensures
        && v.journal.records[key].requestHash == memory[key].requestHash
        && StateRank(RecoverRecord(v.journal.records[key], v.now).state) >= StateRank(memory[key].state)
    {
      RecordHistory(now, maxActive, before, between, key);
      RecoveryMovesOn(v.journal.records[key], v.now);
    }
  }

  /** Records do go away: an attempt that never spawned gives its key back. Every other process that has
      seen its reservation then refuses the file, and as a refused reload does not change what it
      remembers, it goes on refusing while the key stays free. */
  lemma GivenBackRecordBlocksReload(w: World, a: Action, memory: map<Id, Record>)
    requires Enabled(w, a) && a.DoFail? && !w.attempts[a.id].spawned && Effect(w, a).Ok?
    requires w.attempts[a.id].claim.key in memory
    ensures
      var v := Step(w, a);
      && w.attempts[a.id].claim.key !in v.journal.records
      && forall now :: Reload(memory, v.journal, now) == Err(StateInvalid)
  {
    hide CommitFailure, Recover;
    UnspentKeyIsFree(w.journal, w.attempts[a.id].claim, a.known, a.code, w.now);
  }

  lemma RecoveryMovesOn(r: Record, now: int)
    ensures StateRank(r.state) <= StateRank(RecoverRecord(r, now).state)
  {
  }

  /** A reload refuses the file exactly when it contradicts what the process has seen, a record that is
      gone, that is another request, or that has gone back, or when its own recovery cannot be written. */
  lemma ReloadIsRefusedExactly(memory: map<Id, Record>, j: Journal, now: int)
    ensures Reload(memory, j, now).Err? <==>
      || (exists key :: key in memory &&
            (key !in j.records
             || j.records[key].requestHash != memory[key].requestHash
             || StateRank(RecoverRecord(j.records[key], now).state) < StateRank(memory[key].state)))
      || Recover(j, now).Err?
  {
    hide RecoverRecord, Recover, StateRank;
  }
}
