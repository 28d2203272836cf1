/** The locked steps of the runtime, as functions from the journal found on disk to the journal
    left there. `now` is the instant of the critical section. */
module RuntimeSteps {
  import opened Prelude
  import opened TaskContract
  import opened JournalRecord
  import opened Journal
  import opened QueueOrder

  /** The holder of a submission reservation, as the process that made it remembers it. */
  datatype Claim = Claim(key: Id, requestHash: Id, reservationId: Id, ownerId: Id)

  predicate LiveReservation(r: Record, now: int) {
    r.state == Pending && r.reservation.Reservation? && r.reservation.expiresAt > now
  }

  predicate MatchesReservation(r: Record, c: Claim) {
    && r.requestHash == c.requestHash
    && r.state == Pending
    && r.reservation.Reservation?
    && r.reservation.id == c.reservationId
    && r.reservation.ownerId == c.ownerId
  }

  function ClearQueueLease(r: Record): Record {
    r.(queueLease := None, queueTicket := None)
  }

  // ---- Loading -----------------------------------------------------------------------------------

  /** The ticket counter after a load: at least the stored one and above every stored ticket. */
  ghost predicate IsLoadedTicket(j: Journal, t: int) {
    && j.nextTicket <= t
    && (forall k :: k in j.records && j.records[k].queueTicket.Some? ==> j.records[k].queueTicket.value < t)
    && (t == j.nextTicket || exists k :: k in j.records && j.records[k].queueTicket == Some(t - 1))
  }

  lemma LoadedTicketExists(j: Journal, keys: set<Id>) returns (t: int)
    requires keys <= j.records.Keys
    ensures j.nextTicket <= t
    ensures forall k :: k in keys && j.records[k].queueTicket.Some? ==> j.records[k].queueTicket.value < t
    ensures t == j.nextTicket || exists k :: k in j.records && j.records[k].queueTicket == Some(t - 1)
    decreases keys
  {
    if keys == {} {
      t := j.nextTicket;
    } else {
      var k :| k in keys;
      t := LoadedTicketExists(j, keys - {k});
      if j.records[k].queueTicket.Some? && t <= j.records[k].queueTicket.value {
        t := j.records[k].queueTicket.value + 1;
      }
    }
  }

  ghost function LoadedTicket(j: Journal): (t: int)
    ensures IsLoadedTicket(j, t)
    ensures forall u :: IsLoadedTicket(j, u) ==> u == t
  {
    assert exists t :: IsLoadedTicket(j, t) by {
      var t := LoadedTicketExists(j, j.records.Keys);
      assert IsLoadedTicket(j, t);
    }
    var t :| IsLoadedTicket(j, t);
    t
  }

  /** What every reload does to a record whose owner has let its lease run out: a reservation
      that never permitted a spawn failed harmlessly, any other one is uncertain. */
  function RecoverRecord(r: Record, now: int): Record {
    if r.state == Pending && !LiveReservation(r, now) then
      var settled :=
        if r.reservation.Reservation? && r.reservation.phase == Reserved
        then r.(state := Failed, errorCode := Some(Interrupted))
        else r.(state := Unknown, errorCode := if r.task.Some? then Some(SubmissionUnknown) else r.errorCode);
      settled.(updatedAt := now, reservation := NoReservation)
    else if r.task.Some? && r.state == Queued && !LiveQueueLease(r, now) then
      ClearQueueLease(r).(state := Failed, errorCode := Some(Interrupted), updatedAt := now)
    else
      r
  }

  predicate NeedsRecovery(r: Record, now: int) {
    (r.state == Pending && !LiveReservation(r, now)) || (r.task.Some? && r.state == Queued && !LiveQueueLease(r, now))
  }

  predicate AnyExpired(records: map<Id, Record>, now: int) {
    exists k :: k in records && NeedsRecovery(records[k], now)
  }

  function RecoverAll(records: map<Id, Record>, now: int): map<Id, Record> {
    map k | k in records :: RecoverRecord(records[k], now)
  }

  /** Recovery clears tickets and issues none. */
  lemma RecoveryIssuesNoTicket(r: Record, now: int)
    ensures RecoverRecord(r, now).queueTicket.None? || RecoverRecord(r, now).queueTicket == r.queueTicket
  {
  }

  /** `k` has no record and no ticket that `j` does not have. */
  ghost predicate NoNewTickets(j: Journal, k: Journal) {
    forall i :: i in k.records ==>
      && i in j.records
      && (k.records[i].queueTicket.None? || k.records[i].queueTicket == j.records[i].queueTicket)
  }

  lemma RecoveredHasNoNewTickets(j: Journal, now: int, ticket: int)
    ensures NoNewTickets(j, Versioned(j, Journal(RecoverAll(j.records, now), ticket)))
  {
    var k := Versioned(j, Journal(RecoverAll(j.records, now), ticket));
    forall i | i in k.records
      ensures i in j.records
      ensures k.records[i].queueTicket.None? || k.records[i].queueTicket == j.records[i].queueTicket
    {
      RecoveryIssuesNoTicket(j.records[i], now);
    }
  }

  /** Recovery as part of a reload; it writes only when some record was recovered. */
  ghost function Recover(j: Journal, now: int): (r: Result<Journal, Error>)
    ensures r.Ok? ==> Written(j, r.value)
  {
    if AnyExpired(j.records, now)
    then Persist(j, Journal(RecoverAll(j.records, now), LoadedTicket(j))) else Ok(j)
  }

  /** A reload also refuses a disk image behind what this process has already seen. */
  ghost predicate Coherent(memory: map<Id, Record>, j: Journal, now: int) {
    forall k :: k in memory ==>
      && k in j.records
      && j.records[k].requestHash == memory[k].requestHash
      && StateRank(RecoverRecord(j.records[k], now).state) >= StateRank(memory[k].state)
  }

  ghost function Reload(memory: map<Id, Record>, j: Journal, now: int): (r: Result<Journal, Error>)
    ensures r.Ok? ==> Written(j, r.value)
  {
    if Coherent(memory, j, now) then Recover(j, now) else Err(StateInvalid)
  }

  ghost function WriteBack(j: Journal, k: Id, r: Record): (w: Result<Journal, Error>)
    ensures w.Ok? ==> Written(j, w.value)
  {
    Persist(j, Journal(j.records[k := r], LoadedTicket(j)))
  }

  // ---- Queueing ----------------------------------------------------------------------------------

  function QueuedRecord(requestHash: Id, task: TaskInfo, ownerId: Id, expiresAt: int, ticket: int): Record {
    Record(requestHash, Some(task), Queued, 1, None, None, NoReservation, Some(QueueLease(ownerId, expiresAt)),
           Some(ticket), None, task.createdAt, None, None, None, None, None, None, None, false)
  }

  /** A new record under the ticket that the load has found. */
  function EnqueueAt(
    j: Journal, key: Id, requestHash: Id, task: TaskInfo, ownerId: Id, now: int, leaseMs: nat, ticket: int)
    : (r: Result<Journal, Error>)
    ensures r.Ok? ==> Written(j, r.value)
  {
    if key in j.records then
      Err(if j.records[key].requestHash != requestHash then IdempotencyConflict else ReplayForbidden)
    else if !(1 <= ticket < MAX_SAFE_INTEGER) then
      Err(StateInvalid)
    else
      Persist(j, Journal(j.records[key := QueuedRecord(requestHash, task, ownerId, now + leaseMs, ticket)], ticket + 1))
  }

  /** `enqueueNew`. */
  ghost function EnqueueNew(
    j: Journal, key: Id, requestHash: Id, task: TaskInfo, ownerId: Id, now: int, leaseMs: nat): (r: Result<Journal, Error>)
    ensures r.Ok? ==> Written(j, r.value)
  {
    EnqueueAt(j, key, requestHash, task, ownerId, now, leaseMs, LoadedTicket(j))
  }

  ghost function RenewQueueLease(
    j: Journal, key: Id, requestHash: Id, ownerId: Id, now: int, leaseMs: nat): (r: Result<Journal, Error>)
    ensures r.Ok? ==> Written(j, r.value)
  {
    if key !in j.records || j.records[key].requestHash != requestHash
       || !LiveQueueLease(j.records[key], now) || j.records[key].queueLease.value.ownerId != ownerId then
      Err(CliFenced)
    else
      var r := j.records[key];
      WriteBack(j, key, r.(queueLease := Some(r.queueLease.value.(expiresAt := now + leaseMs))))
  }

  function ReservedRecord(r: Record, c: Claim, now: int, leaseMs: nat): Record {
    ClearQueueLease(r).(state := Pending,
                        reservation := Reservation(c.reservationId, c.ownerId, now + leaseMs, Reserved),
                        updatedAt := now)
  }

  /** A queued record at the front of the live queue takes a free slot; otherwise nothing is
      written and the task keeps waiting. */
  ghost function ReserveSlot(j: Journal, c: Claim, now: int, leaseMs: nat, maxActive: nat): (r: Result<Journal, Error>)
    ensures r.Ok? ==> Written(j, r.value)
  {
    if c.key !in j.records || j.records[c.key].requestHash != c.requestHash then Err(StateInvalid)
    else if j.records[c.key].state != Queued then Err(ReplayForbidden)
    else if !HasPriority(j, now, c.key, maxActive) then Ok(j)
    else WriteBack(j, c.key, ReservedRecord(j.records[c.key], c, now, leaseMs))
  }

  function RenewedRecord(r: Record, now: int, leaseMs: nat): Record
    requires r.reservation.Reservation?
  {
    r.(reservation := Reservation(r.reservation.id, r.reservation.ownerId, now + leaseMs, r.reservation.phase))
  }

  ghost function RenewReservation(j: Journal, c: Claim, now: int, leaseMs: nat): (r: Result<Journal, Error>)
    ensures r.Ok? ==> Written(j, r.value)
  {
    if c.key !in j.records || !MatchesReservation(j.records[c.key], c) || !LiveReservation(j.records[c.key], now) then
      Err(CliFenced)
    else
      WriteBack(j, c.key, RenewedRecord(j.records[c.key], now, leaseMs))
  }

  // ---- Submitting --------------------------------------------------------------------------------

  function FencedRecord(r: Record, fence: int, session: Option<Account>, now: int, leaseMs: nat): Record
    requires r.reservation.Reservation?
  {
    r.(fence := Some(fence),
       account := if session.Some? then session else r.account,
       reservation := Reservation(r.reservation.id, r.reservation.ownerId, now + leaseMs, SpawnPermitted))
  }

  /** `commitInvocationFence`: the durable permission to start the provider process. */
  ghost function CommitFence(
    j: Journal, c: Claim, fence: int, session: Option<Account>, now: int, leaseMs: nat): (r: Result<Journal, Error>)
    ensures r.Ok? ==> Written(j, r.value)
  {
    if c.key !in j.records || !MatchesReservation(j.records[c.key], c) || !LiveReservation(j.records[c.key], now) then
      Err(CliFenced)
    else
      var r := j.records[c.key];
      if r.fence.Some? && r.fence.value > fence then Err(CliFenced)
      else if session.Some? && r.account.Some? && r.account.value.binding != session.value.binding then Err(AccountChanged)
      else WriteBack(j, c.key, FencedRecord(r, fence, session, now, leaseMs))
  }

  function AcceptedRecord(r: Record, submitId: Id, now: int): Record {
    r.(state := Accepted, submitId := Some(submitId), updatedAt := now, reservation := NoReservation)
  }

  /** `commitAcceptedReceipt`: `current` is the arbiter's answer to `assertCurrent`. */
  ghost function CommitAccepted(
    j: Journal, c: Claim, fence: int, submitId: Id, session: Option<Account>, current: bool, now: int): (r: Result<Journal, Error>)
    ensures r.Ok? ==> Written(j, r.value)
  {
    if c.key !in j.records || !MatchesReservation(j.records[c.key], c)
       || j.records[c.key].reservation.phase != SpawnPermitted || j.records[c.key].fence != Some(fence) then
      Err(CliFenced)
    else if session.Some? && j.records[c.key].account != session then
      Err(AccountChanged)
    else if !current then
      Err(CliFenced)
    else
      WriteBack(j, c.key, AcceptedRecord(j.records[c.key], submitId, now))
  }

  function UncertainRecord(r: Record, code: ErrorCode, now: int): Record {
    r.(state := Unknown, errorCode := Some(code), updatedAt := now, reservation := NoReservation)
  }

  /** `commitSubmissionFailure`: an attempt that never spawned gives its key back, any other one
      leaves the submission uncertain. */
  ghost function CommitFailure(
    j: Journal, c: Claim, fence: Option<int>, spawned: bool, code: ErrorCode, now: int): (r: Result<Journal, Error>)
    ensures r.Ok? ==> Written(j, r.value)
  {
    if c.key !in j.records || !MatchesReservation(j.records[c.key], c)
       || (fence.Some? && j.records[c.key].fence != fence) then
      Err(CliFenced)
    else if !spawned then
      Persist(j, Journal(j.records - {c.key}, LoadedTicket(j)))
    else
      WriteBack(j, c.key, UncertainRecord(j.records[c.key], code, now))
  }

  ghost function CleanupWarning(j: Journal, key: Id, fence: int, now: int): (r: Result<Journal, Error>)
    ensures r.Ok? ==> Written(j, r.value)
  {
    if key !in j.records || j.records[key].state != Accepted || j.records[key].fence != Some(fence) then
      Err(CliFenced)
    else
      WriteBack(j, key, j.records[key].(errorCode := Some(CleanupFailed), updatedAt := now))
  }

  // ---- Ending tasks ------------------------------------------------------------------------------

  function CancelledRecord(r: Record, now: int): Record {
    ClearQueueLease(r).(state := Cancelled, errorCode := Some(LocallyCancelled), updatedAt := now)
  }

  /** `cancelTask`: only a task without a submission is cancelled; others are left as they are. */
  ghost function CancelTask(j: Journal, key: Id, now: int): (r: Result<Journal, Error>)
    ensures r.Ok? ==> Written(j, r.value)
  {
    if key !in j.records || j.records[key].task.None? then Err(TaskNotFound)
    else if IsTerminal(j.records[key].state) || j.records[key].state == Pending then Ok(j)
    else if j.records[key].state == Accepted && j.records[key].submitId.Some? then Ok(j)
    else WriteBack(j, key, CancelledRecord(j.records[key], now))
  }

  predicate RemovedLocally(r: Record) {
    r.state == Queued || (r.state == Pending && r.reservation.Reservation? && r.reservation.phase == Reserved)
  }

  function DeletedRecord(r: Record, now: int): Record {
    if RemovedLocally(r) then ClearQueueLease(r).(state := Deleted, updatedAt := now)
    else r.(hidden := true, updatedAt := now)
  }

  /** `deleteTask`: a task not yet submitted is deleted, any other one is hidden. */
  ghost function DeleteTask(j: Journal, key: Id, now: int): (r: Result<Journal, Error>)
    ensures r.Ok? ==> Written(j, r.value)
  {
    if key !in j.records then Err(TaskNotFound)
    else if j.records[key].state == Deleted || j.records[key].hidden then Ok(j)
    else if j.records[key].task.None? then Err(TaskNotFound)
    else WriteBack(j, key, DeletedRecord(j.records[key], now))
  }

  function FailedRecord(r: Record, code: ErrorCode, now: int): Record {
    ClearQueueLease(r).(state := Failed, errorCode := Some(code), updatedAt := now)
  }

  /** `failTask`: never overwrites a settled task. */
  ghost function FailTask(j: Journal, key: Id, code: ErrorCode, now: int): (r: Result<Journal, Error>)
    ensures r.Ok? ==> Written(j, r.value)
  {
    if key !in j.records || j.records[key].task.None? then Err(StateInvalid)
    else if IsTerminal(j.records[key].state) then Ok(j)
    else WriteBack(j, key, FailedRecord(j.records[key], code, now))
  }

  predicate OwnedQueued(r: Record, ownerId: Id) {
    r.state == Queued && r.queueLease.Some? && r.queueLease.value.ownerId == ownerId
  }

  function DisposeRecord(r: Record, ownerId: Id, now: int): Record {
    if OwnedQueued(r, ownerId) then FailedRecord(r, Interrupted, now) else r
  }

  predicate AnyOwnedQueued(records: map<Id, Record>, ownerId: Id) {
    exists k :: k in records && OwnedQueued(records[k], ownerId)
  }

  function DisposeAll(records: map<Id, Record>, ownerId: Id, now: int): map<Id, Record> {
    map k | k in records :: DisposeRecord(records[k], ownerId, now)
  }

  /** `failOwnedQueuedTasksOnDispose`. */
  ghost function Dispose(j: Journal, ownerId: Id, now: int): (r: Result<Journal, Error>)
    ensures r.Ok? ==> Written(j, r.value)
  {
    if AnyOwnedQueued(j.records, ownerId)
    then Persist(j, Journal(DisposeAll(j.records, ownerId, now), LoadedTicket(j)))
    else Ok(j)
  }

  // ---- The older `run` interface: one critical section from intent to receipt ----------------------

  function IntentRecord(requestHash: Id, now: int): Record {
    Record(requestHash, None, Pending, 1, None, None, NoReservation, None, None, None, now, None, None, None, None,
           None, None, None, false)
  }

  ghost function RunBegin(j: Journal, key: Id, requestHash: Id, now: int, maxActive: nat): (r: Result<Journal, Error>)
    ensures r.Ok? ==> Written(j, r.value)
  {
    if key in j.records then
      Err(if j.records[key].requestHash != requestHash then IdempotencyConflict else ReplayForbidden)
    else if |Slots(j)| >= maxActive then
      Err(CapacityFull)
    else
      WriteBack(j, key, IntentRecord(requestHash, now))
  }

  ghost function RunFence(j: Journal, key: Id, fence: int, session: Option<Account>): (r: Result<Journal, Error>)
    ensures r.Ok? ==> Written(j, r.value)
  {
    if key !in j.records then Err(StateInvalid)
    else WriteBack(j, key, j.records[key].(fence := Some(fence),
                                           account := if session.Some? then session else j.records[key].account))
  }

  ghost function RunAccept(j: Journal, key: Id, submitId: Id, now: int): (r: Result<Journal, Error>)
    ensures r.Ok? ==> Written(j, r.value)
  {
    if key !in j.records then Err(StateInvalid)
    else WriteBack(j, key, j.records[key].(state := Accepted, submitId := Some(submitId), updatedAt := now))
  }

  ghost function RunAbandon(j: Journal, key: Id): (r: Result<Journal, Error>)
    ensures r.Ok? ==> Written(j, r.value)
  {
    Persist(j, Journal(j.records - {key}, LoadedTicket(j)))
  }

  ghost function RunUncertain(j: Journal, key: Id, code: ErrorCode, now: int): (r: Result<Journal, Error>)
    ensures r.Ok? ==> Written(j, r.value)
  {
    if key !in j.records then Err(StateInvalid)
    else WriteBack(j, key, j.records[key].(state := Unknown, errorCode := Some(code), updatedAt := now, submitId := None))
  }
}
