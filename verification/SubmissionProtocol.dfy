/** Many processes over one journal: every interleaving of their locked steps, of starts of the
    provider process, of crashes, stalls and lease expiry.

    A process that made a reservation is an attempt. Attempts act at any later time, with
    whatever they remember; a stalled owner may wake up after others have recovered its record. */
module SubmissionProtocol {
  import opened Prelude
  import opened TaskContract
  import opened JournalRecord
  import opened Journal
  import opened QueueOrder
  import opened RuntimeSteps
  import opened Reconciler
  import opened RecordSteps

  datatype Stage = Holding | Permitted | Finished

  /** `viaRun`: the older interface, which holds the state lock from its intent to its end. */
  datatype Attempt = Attempt(claim: Claim, stage: Stage, spawned: bool, fence: int, viaRun: bool)

  /** `handed` is the history of durable queue tickets. */
  datatype World = World(
    journal: Journal, now: int, maxActive: nat, attempts: map<Id, Attempt>, lock: Option<Id>, handed: seq<int>)

  datatype Action =
    | Tick(elapsed: nat)
    | DoRecover
    | DoEnqueue(key: Id, requestHash: Id, task: TaskInfo, ownerId: Id, leaseMs: nat)
    | DoRenewQueue(key: Id, requestHash: Id, ownerId: Id, leaseMs: nat)
    | DoReserve(claim: Claim, leaseMs: nat)
    | DoRenewReservation(id: Id, leaseMs: nat)
    | DoFence(id: Id, fence: int, session: Option<Account>, leaseMs: nat)
    | DoSpawn(id: Id)
    | DoAccept(id: Id, submitId: Id, session: Option<Account>, current: bool)
    | DoFail(id: Id, known: Option<int>, code: ErrorCode)
    | DoCrash(id: Id)
    | DoCleanupWarning(key: Id, fence: int)
    | DoCancel(key: Id)
    | DoDelete(key: Id)
    | DoFailTask(key: Id, code: ErrorCode)
    | DoDispose(ownerId: Id)
    | DoRunBegin(id: Id, key: Id, requestHash: Id)
    | DoRunFence(id: Id, fence: int, session: Option<Account>)
    | DoRunAccept(id: Id, submitId: Id)
    | DoRunAbandon(id: Id)
    | DoInitialize(delays: Id -> nat)
    | DoSchedule(key: Id, at: int)
    | DoRequestNow(key: Id)
    | DoClaim(key: Id, lease: PollLease)
    | DoRenewPoll(key: Id, lease: PollLease, at: int)
    | DoReport(key: Id, lease: PollLease, report: Report, when: Agenda)
    | DoSyncError(key: Id, lease: PollLease, code: ErrorCode, when: Agenda)
    | DoReleasePoll(key: Id, lease: PollLease)
    | DoReleaseOwned(ownerId: Id)

  function Init(now: int, maxActive: nat): World {
    World(EMPTY_JOURNAL, now, maxActive, map[], None, [])
  }

  predicate Active(w: World, id: Id, viaRun: bool) {
    id in w.attempts && w.attempts[id].stage != Finished && w.attempts[id].viaRun == viaRun
  }

  /** Whether the process can take this step now. Reservation ids are fresh uuids; locked steps
      wait for the lock; no code path reports the interruption code as an error of its own. */
  predicate Enabled(w: World, a: Action) {
    match a
    case Tick(_) => true
    case DoSpawn(id) => id in w.attempts && w.attempts[id].stage == Permitted && !w.attempts[id].spawned
    case DoCrash(id) => id in w.attempts
    case DoRunFence(id, _, _) => w.lock == Some(id) && id in w.attempts && w.attempts[id].stage == Holding
    case DoRunAccept(id, _) => w.lock == Some(id) && id in w.attempts && w.attempts[id].stage == Permitted && w.attempts[id].spawned
    case DoRunAbandon(id) => w.lock == Some(id) && id in w.attempts && !w.attempts[id].spawned
    case DoRunBegin(id, _, _) => w.lock.None? && id !in w.attempts
    case DoReserve(claim, _) => w.lock.None? && claim.reservationId !in w.attempts
    case DoRenewReservation(id, _) => w.lock.None? && Active(w, id, false)
    case DoFence(id, _, _, _) => w.lock.None? && Active(w, id, false) && w.attempts[id].stage == Holding
    case DoAccept(id, _, _, _) => w.lock.None? && Active(w, id, false) && w.attempts[id].stage == Permitted && w.attempts[id].spawned
    case DoFail(id, _, _) => w.lock.None? && Active(w, id, false)
    case DoFailTask(_, code) => w.lock.None? && code != Interrupted
    case DoSyncError(_, _, code, _) => w.lock.None? && code != Interrupted
    case _ => w.lock.None?
  }

  /** The journal the step writes. */
  ghost function Effect(w: World, a: Action): (r: Result<Journal, Error>)
    requires Enabled(w, a)
    ensures r.Ok? ==> Written(w.journal, r.value)
  {
    var j, now := w.journal, w.now;
    match a
    case Tick(_) => Ok(j)
    case DoSpawn(_) => Ok(j)
    case DoCrash(_) => Ok(j)
    case DoRecover => Recover(j, now)
    case DoEnqueue(key, hash, task, ownerId, leaseMs) => EnqueueNew(j, key, hash, task, ownerId, now, leaseMs)
    case DoRenewQueue(key, hash, ownerId, leaseMs) => RenewQueueLease(j, key, hash, ownerId, now, leaseMs)
    case DoReserve(claim, leaseMs) => ReserveSlot(j, claim, now, leaseMs, w.maxActive)
    case DoRenewReservation(id, leaseMs) => RenewReservation(j, w.attempts[id].claim, now, leaseMs)
    case DoFence(id, fence, session, leaseMs) => CommitFence(j, w.attempts[id].claim, fence, session, now, leaseMs)
    case DoAccept(id, submitId, session, current) =>
      CommitAccepted(j, w.attempts[id].claim, w.attempts[id].fence, submitId, session, current, now)
    case DoFail(id, known, code) => CommitFailure(j, w.attempts[id].claim, known, w.attempts[id].spawned, code, now)
    case DoCleanupWarning(key, fence) => CleanupWarning(j, key, fence, now)
    case DoCancel(key) => CancelTask(j, key, now)
    case DoDelete(key) => DeleteTask(j, key, now)
    case DoFailTask(key, code) => FailTask(j, key, code, now)
    case DoDispose(ownerId) => Dispose(j, ownerId, now)
    case DoRunBegin(_, key, hash) => RunBegin(j, key, hash, now, w.maxActive)
    case DoRunFence(id, fence, session) => RunFence(j, w.attempts[id].claim.key, fence, session)
    case DoRunAccept(id, submitId) => RunAccept(j, w.attempts[id].claim.key, submitId, now)
    case DoRunAbandon(id) => RunAbandon(j, w.attempts[id].claim.key)
    case DoInitialize(delays) => Initialize(j, delays, now)
    case DoSchedule(key, at) => Schedule(j, key, at)
    case DoRequestNow(key) => RequestNow(j, key, now)
    case DoClaim(key, lease) => ClaimKey(j, key, lease, now)
    case DoRenewPoll(key, lease, at) => RenewPollLease(j, key, lease, at)
    case DoReport(key, lease, report, when) => CommitReport(j, key, lease, report, when, now)
    case DoSyncError(key, lease, code, when) => CommitSyncError(j, key, lease, code, when, now)
    case DoReleasePoll(key, lease) => ReleasePollLease(j, key, lease)
    case DoReleaseOwned(ownerId) => ReleaseOwned(j, ownerId)
  }

  predicate GrantsSlot(w: World, a: Action)
    requires a.DoReserve?
  {
    && a.claim.key in w.journal.records
    && w.journal.records[a.claim.key].state == Queued
    && w.journal.records[a.claim.key].requestHash == a.claim.requestHash
    && HasPriority(w.journal, w.now, a.claim.key, w.maxActive)
  }

  /** What the acting process remembers afterwards; `ok` tells whether its write went through. */
  function Remember(w: World, a: Action, ok: bool): map<Id, Attempt>
    requires Enabled(w, a)
  {
    match a
    case DoReserve(claim, _) =>
      if ok && GrantsSlot(w, a) then w.attempts[claim.reservationId := Attempt(claim, Holding, false, 0, false)]
      else w.attempts
    case DoRunBegin(id, key, hash) =>
      if ok then w.attempts[id := Attempt(Claim(key, hash, id, id), Holding, false, 0, true)] else w.attempts
    case DoFence(id, fence, _, _) =>
      if ok then w.attempts[id := w.attempts[id].(stage := Permitted, fence := fence)] else w.attempts
    case DoRunFence(id, fence, _) =>
      if ok then w.attempts[id := w.attempts[id].(stage := Permitted, fence := fence)] else w.attempts
    case DoSpawn(id) => w.attempts[id := w.attempts[id].(spawned := true)]
    case DoAccept(id, _, _, _) => if ok then w.attempts[id := w.attempts[id].(stage := Finished)] else w.attempts
    case DoRunAccept(id, _) => if ok then w.attempts[id := w.attempts[id].(stage := Finished)] else w.attempts
    case DoFail(id, _, _) => w.attempts[id := w.attempts[id].(stage := Finished)]
    case DoCrash(id) => w.attempts[id := w.attempts[id].(stage := Finished)]
    case DoRunAbandon(id) => if ok then w.attempts[id := w.attempts[id].(stage := Finished)] else w.attempts
    case _ => w.attempts
  }

  function NextLock(w: World, a: Action, ok: bool): Option<Id> {
    match a
    case DoRunBegin(id, _, _) => if ok then Some(id) else w.lock
    case DoRunAccept(_, _) => if ok then None else w.lock
    case DoRunAbandon(_) => if ok then None else w.lock
    case DoCrash(id) => if w.lock == Some(id) then None else w.lock
    case _ => w.lock
  }

  ghost function Step(w: World, a: Action): World {
    if !Enabled(w, a) then
      w
    else
      var e := Effect(w, a);
      World(if e.Ok? then e.value else w.journal,
            if a.Tick? then w.now + a.elapsed else w.now,
            w.maxActive,
            Remember(w, a, e.Ok?),
            NextLock(w, a, e.Ok?),
            if a.DoEnqueue? && e.Ok? then w.handed + [LoadedTicket(w.journal)] else w.handed)
  }

  ghost function Run(w: World, actions: seq<Action>): World
    decreases |actions|
  {
    if actions == [] then w else Run(Step(w, actions[0]), actions[1..])
  }

  // ---- The invariant -------------------------------------------------------------------------------

  /** The attempt has started the provider process, or is free to do so at any moment. */
  predicate MaySpawn(a: Attempt) {
    a.spawned || a.stage == Permitted
  }

  /** The journal accounts for such an attempt. */
  predicate Guarded(j: Journal, a: Attempt) {
    && a.claim.key in j.records
    && var r := j.records[a.claim.key];
    || Accounted(r)
    || (!a.viaRun && PermittedBy(r, a.claim))
    || (a.viaRun && OpenIntent(r))
  }

  ghost predicate JournalInv(j: Journal, maxActive: nat) {
    && ValidJournal(j)
    && (forall k :: k in j.records ==> Tame(j.records[k]))
    && |Slots(j)| <= maxActive
  }

  ghost predicate TicketInv(j: Journal) {
    && TicketsDiffer(j)
    && forall k :: k in j.records && j.records[k].queueTicket.Some? ==> j.records[k].queueTicket.value < j.nextTicket
  }

  ghost predicate AttemptInv(j: Journal, attempts: map<Id, Attempt>) {
    forall id :: id in attempts ==>
      attempts[id].claim.reservationId == id && (MaySpawn(attempts[id]) ==> Guarded(j, attempts[id]))
  }

  ghost predicate Unique(attempts: map<Id, Attempt>) {
    forall a, b :: a in attempts && b in attempts && a != b && MaySpawn(attempts[a]) && MaySpawn(attempts[b]) ==>
      attempts[a].claim.key != attempts[b].claim.key
  }

  /** Nobody else may have spawned for the key whose intent the lock holder has written. */
  ghost predicate LockInv(j: Journal, attempts: map<Id, Attempt>, lock: Option<Id>) {
    && (forall id :: id in attempts && attempts[id].viaRun && attempts[id].stage != Finished ==> lock == Some(id))
    && (lock.Some? ==>
          && lock.value in attempts
          && attempts[lock.value].viaRun
          && attempts[lock.value].stage != Finished
          && var key := attempts[lock.value].claim.key;
          && key in j.records
          && OpenIntent(j.records[key])
          && forall id :: id in attempts && id != lock.value && MaySpawn(attempts[id]) ==> attempts[id].claim.key != key)
  }

  /** Tickets were handed out in increasing order, all below the counter. */
  ghost predicate Increasing(handed: seq<int>, bound: int) {
    handed == [] ||
    var front, last := handed[..|handed| - 1], handed[|handed| - 1];
    last < bound && Increasing(front, last)
  }

  ghost predicate Inv(w: World) {
    && JournalInv(w.journal, w.maxActive)
    && TicketInv(w.journal)
    && AttemptInv(w.journal, w.attempts)
    && Unique(w.attempts)
    && LockInv(w.journal, w.attempts, w.lock)
    && Increasing(w.handed, w.journal.nextTicket)
  }

  // ---- Journal changes that touch no attempt ---------------------------------------------------------

  /** Every record of `j` is still there in `k`, changed harmlessly if at all. */
  ghost predicate Pointwise(j: Journal, k: Journal) {
    && k.records.Keys == j.records.Keys
    && j.nextTicket <= k.nextTicket
    && ValidJournal(k)
    && forall i :: i in j.records ==> Harmless(j.records[i], k.records[i])
  }

  lemma SubsetSize(a: set<Id>, b: set<Id>)
    requires a <= b
    ensures |a| <= |b|
  {
    assert b == a + (b - a);
  }

  lemma PointwiseKeepsJournal(j: Journal, k: Journal, maxActive: nat)
    requires JournalInv(j, maxActive) && Pointwise(j, k)
    ensures JournalInv(k, maxActive)
  {
    assert Slots(k) <= Slots(j);
    SubsetSize(Slots(k), Slots(j));
  }

  lemma PointwiseKeepsTickets(j: Journal, k: Journal)
    requires TicketInv(j) && Pointwise(j, k)
    ensures TicketInv(k)
  {
  }

  lemma GuardKept(j: Journal, k: Journal, a: Attempt)
    requires Guarded(j, a) && a.claim.key in k.records
    requires Keeps(j.records[a.claim.key], k.records[a.claim.key])
    ensures Guarded(k, a)
  {
  }

  lemma PointwiseKeepsAttempts(j: Journal, k: Journal, attempts: map<Id, Attempt>)
    requires AttemptInv(j, attempts) && Pointwise(j, k)
    ensures AttemptInv(k, attempts)
  {
    forall id | id in attempts && MaySpawn(attempts[id]) ensures Guarded(k, attempts[id]) {
      assert Harmless(j.records[attempts[id].claim.key], k.records[attempts[id].claim.key]);
      GuardKept(j, k, attempts[id]);
    }
  }

  lemma {:induction false} IncreasingBound(handed: seq<int>, bound: int, higher: int)
    requires Increasing(handed, bound) && bound <= higher
    ensures Increasing(handed, higher)
  {
  }

  lemma PointwiseRefl(j: Journal)
    requires ValidJournal(j)
    ensures Pointwise(j, j)
  {
    forall i | i in j.records ensures Harmless(j.records[i], j.records[i]) {
      HarmlessRefl(j.records[i]);
    }
  }

  /** A harmless write of one record. */
  lemma WriteIsPointwise(j: Journal, k: Id, r: Record, ticket: int)
    requires k in j.records && Harmless(j.records[k], r) && j.nextTicket <= ticket
    requires Persist(j, Journal(j.records[k := r], ticket)).Ok?
    ensures Pointwise(j, Persist(j, Journal(j.records[k := r], ticket)).value)
  {
    hide Versioned, ValidJournal, Writable;
    PersistOneInverse(j, k, r, ticket);
    var after := Persist(j, Journal(j.records[k := r], ticket)).value;
    forall i | i in j.records ensures Harmless(j.records[i], after.records[i]) {
      if i == k {
        HarmlessStamp(j.records[k], r, NextVersion(j, k, r));
      } else {
        HarmlessRefl(j.records[i]);
      }
    }
  }

  lemma PutIsPointwise(j: Journal, k: Id, r: Record)
    requires k in j.records && Harmless(j.records[k], r) && Put(j, k, r).Ok?
    ensures Pointwise(j, Put(j, k, r).value)
  {
    assert j.(records := j.records[k := r]) == Journal(j.records[k := r], j.nextTicket);
    WriteIsPointwise(j, k, r, j.nextTicket);
  }

  /** A harmless rewrite of all records. */
  lemma BatchIsPointwise(j: Journal, records: map<Id, Record>, ticket: int)
    requires records.Keys == j.records.Keys && j.nextTicket <= ticket
    requires forall i :: i in j.records ==> Harmless(j.records[i], records[i])
    requires Persist(j, Journal(records, ticket)).Ok?
    ensures Pointwise(j, Persist(j, Journal(records, ticket)).value)
  {
    var after := Persist(j, Journal(records, ticket)).value;
    assert after == Versioned(j, Journal(records, ticket));
    forall i | i in j.records ensures Harmless(j.records[i], after.records[i]) {
      HarmlessStamp(j.records[i], records[i], NextVersion(j, i, records[i]));
    }
  }
}
