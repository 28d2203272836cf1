/** What the locked steps of the runtime leave in the journal, field by field, and that one step
    leaves what the next one of the same submission needs. */
module RuntimeEffects {
  import opened Prelude
  import opened TaskContract
  import opened JournalRecord
  import opened Journal
  import opened QueueOrder
  import opened RuntimeSteps
  import opened RuntimeGate

  /** Apart from the record under `key` the journal is the same. */
  ghost predicate OthersStay(j: Journal, k: Journal, key: Id) {
    forall i :: i != key ==> (i in k.records <==> i in j.records) && (i in j.records ==> k.records[i] == j.records[i])
  }

  lemma WriteBackShape(j: Journal, key: Id, r: Record)
    requires WriteBack(j, key, r).Ok?
    ensures
      var k := WriteBack(j, key, r).value;
      && key in k.records && k.records[key] == r.(version := NextVersion(j, key, r))
      && OthersStay(j, k, key) && k.nextTicket == LoadedTicket(j)
  {
    hide Persist, IsLoadedTicket;
    PersistOneInverse(j, key, r, LoadedTicket(j));
  }

  // ---- Queueing ------------------------------------------------------------------------------------------

  /** A new task is queued as it was given, for its owner, under the ticket the load has found; the
      next one will get the next ticket. */
  lemma EnqueueStoresTheTask(
    j: Journal, key: Id, requestHash: Id, task: TaskInfo, ownerId: Id, now: int, leaseMs: nat, ticket: int)
    requires EnqueueAt(j, key, requestHash, task, ownerId, now, leaseMs, ticket).Ok?
    ensures
      var k := EnqueueAt(j, key, requestHash, task, ownerId, now, leaseMs, ticket).value;
      && key !in j.records && key in k.records && OthersStay(j, k, key) && k.nextTicket == ticket + 1
      && var r := k.records[key];
      && r.state == Queued && r.requestHash == requestHash && r.task == Some(task)
      && r.queueTicket == Some(ticket) && r.queueLease == Some(QueueLease(ownerId, now + leaseMs))
      && r.submitId.None? && r.fence.None? && r.account.None? && r.reservation.NoReservation? && r.outputs.None?
      && r.errorCode.None? && r.officialStatus.None? && r.lastObservedAt.None? && r.nextPollAt.None? && r.pollLease.None?
      && r.updatedAt == task.createdAt && r.version == 1 && !r.hidden
  {
    hide Persist;
    PersistOneInverse(j, key, QueuedRecord(requestHash, task, ownerId, now + leaseMs, ticket), ticket + 1);
  }

  /** A renewed entry lives until the end of a new term and is the same otherwise. */
  lemma QueueRenewalExtends(j: Journal, key: Id, requestHash: Id, ownerId: Id, now: int, leaseMs: nat)
    requires RenewQueueLease(j, key, requestHash, ownerId, now, leaseMs).Ok?
    ensures
      var k := RenewQueueLease(j, key, requestHash, ownerId, now, leaseMs).value;
      && key in j.records && key in k.records && OthersStay(j, k, key)
      && var q := k.records[key];
      && q == j.records[key].(queueLease := Some(QueueLease(ownerId, now + leaseMs)), version := q.version)
  {
    hide WriteBack;
    var r := j.records[key];
    WriteBackShape(j, key, r.(queueLease := Some(r.queueLease.value.(expiresAt := now + leaseMs))));
  }

  /** A task with the declared priority gets a reservation for its claim, leaves the queue, and is
      otherwise unchanged; without priority nothing happens. */
  lemma ReservationIsMade(j: Journal, c: Claim, now: int, leaseMs: nat, maxActive: nat)
    requires ReserveSlot(j, c, now, leaseMs, maxActive).Ok?
    ensures
      var k := ReserveSlot(j, c, now, leaseMs, maxActive).value;
      && c.key in j.records && j.records[c.key].state == Queued && j.records[c.key].requestHash == c.requestHash
      && (!HasPriority(j, now, c.key, maxActive) ==> k == j)
      && (HasPriority(j, now, c.key, maxActive) ==>
            && c.key in k.records && OthersStay(j, k, c.key)
            && var q := k.records[c.key];
            && q.state == Pending && q.queueLease.None? && q.queueTicket.None?
            && q.reservation == Reservation(c.reservationId, c.ownerId, now + leaseMs, Reserved)
            && q == j.records[c.key].(state := Pending, queueLease := None, queueTicket := None,
                                      reservation := q.reservation, updatedAt := now, version := q.version))
  {
    hide WriteBack, HasPriority;
    if HasPriority(j, now, c.key, maxActive) {
      WriteBackShape(j, c.key, ReservedRecord(j.records[c.key], c, now, leaseMs));
    }
  }

  lemma ReservationRenewalExtends(j: Journal, c: Claim, now: int, leaseMs: nat)
    requires RenewReservation(j, c, now, leaseMs).Ok?
    ensures
      var k := RenewReservation(j, c, now, leaseMs).value;
      && c.key in j.records && c.key in k.records && OthersStay(j, k, c.key)
      && MatchesReservation(j.records[c.key], c)
      && var r, q := j.records[c.key], k.records[c.key];
      && q == r.(reservation := Reservation(c.reservationId, c.ownerId, now + leaseMs, r.reservation.phase), version := q.version)
  {
    hide WriteBack;
    WriteBackShape(j, c.key, RenewedRecord(j.records[c.key], now, leaseMs));
  }

  // ---- Submitting ------------------------------------------------------------------------------------------

  /** The permission to spawn is stored with the fence and the account it was given under. */
  lemma PermissionIsStored(j: Journal, c: Claim, fence: int, session: Option<Account>, now: int, leaseMs: nat)
    requires CommitFence(j, c, fence, session, now, leaseMs).Ok?
    ensures
      var k := CommitFence(j, c, fence, session, now, leaseMs).value;
      && c.key in j.records && c.key in k.records && OthersStay(j, k, c.key)
      && MatchesReservation(j.records[c.key], c) && LiveReservation(j.records[c.key], now)
      && var r, q := j.records[c.key], k.records[c.key];
      && q.reservation == Reservation(c.reservationId, c.ownerId, now + leaseMs, SpawnPermitted)
      && q.fence == Some(fence) && (session.Some? ==> q.account == session) && (session.None? ==> q.account == r.account)
      && q == r.(fence := q.fence, account := q.account, reservation := q.reservation, version := q.version)
  {
    hide WriteBack;
    WriteBackShape(j, c.key, FencedRecord(j.records[c.key], fence, session, now, leaseMs));
  }

  /** Whoever does not hold the very reservation, of that request, under that id, for that owner, while
      the record is pending, is refused by every step of a submission. */
  lemma ForeignClaimIsRefused(
    j: Journal, c: Claim, fence: int, session: Option<Account>, submitId: Id, code: ErrorCode, spawned: bool, now: int,
    leaseMs: nat)
    requires c.key in j.records ==>
      var r := j.records[c.key];
      || r.requestHash != c.requestHash || r.state != Pending || !r.reservation.Reservation?
      || r.reservation.id != c.reservationId || r.reservation.ownerId != c.ownerId
    ensures RenewReservation(j, c, now, leaseMs) == Err(CliFenced)
    ensures CommitFence(j, c, fence, session, now, leaseMs) == Err(CliFenced)
    ensures CommitAccepted(j, c, fence, submitId, session, true, now) == Err(CliFenced)
    ensures CommitFailure(j, c, Some(fence), spawned, code, now) == Err(CliFenced)
  {
  }

  /** A reservation whose time is over permits no spawn and is not renewed; a permission given before
      still brings its receipt home. */
  lemma LateClaimIsRefused(j: Journal, c: Claim, fence: int, session: Option<Account>, now: int, leaseMs: nat)
    requires c.key in j.records ==> !j.records[c.key].reservation.Reservation? || j.records[c.key].reservation.expiresAt <= now
    ensures RenewReservation(j, c, now, leaseMs) == Err(CliFenced)
    ensures CommitFence(j, c, fence, session, now, leaseMs) == Err(CliFenced)
  {
  }

  /** The receipt stored is the one the provider gave: the record is accepted with it, its
      reservation is spent, and request, task, fence, account and all other records are as before. */
  lemma ReceiptIsStored(
    j: Journal, c: Claim, fence: int, submitId: Id, session: Option<Account>, current: bool, now: int)
    requires CommitAccepted(j, c, fence, submitId, session, current, now).Ok?
    ensures
      var k := CommitAccepted(j, c, fence, submitId, session, current, now).value;
      && current && c.key in j.records && c.key in k.records && OthersStay(j, k, c.key)
      && MatchesReservation(j.records[c.key], c) && j.records[c.key].reservation.phase == SpawnPermitted
      && j.records[c.key].fence == Some(fence) && (session.Some? ==> j.records[c.key].account == session)
      && var r, q := j.records[c.key], k.records[c.key];
      && q.state == Accepted && q.submitId == Some(submitId) && q.reservation.NoReservation?
      && q.requestHash == r.requestHash && q.task == r.task && q.fence == r.fence && q.account == r.account
      && q == r.(state := Accepted, submitId := Some(submitId), reservation := NoReservation, updatedAt := now,
                 version := q.version)
  {
    hide WriteBack;
    WriteBackShape(j, c.key, AcceptedRecord(j.records[c.key], submitId, now));
  }

  /** The same for the older interface. */
  lemma RunReceiptIsStored(j: Journal, key: Id, submitId: Id, now: int)
    requires RunAccept(j, key, submitId, now).Ok?
    ensures
      var k := RunAccept(j, key, submitId, now).value;
      && key in j.records && key in k.records && OthersStay(j, k, key)
      && var q := k.records[key];
      && q == j.records[key].(state := Accepted, submitId := Some(submitId), updatedAt := now, version := q.version)
  {
    hide WriteBack;
    WriteBackShape(j, key, j.records[key].(state := Accepted, submitId := Some(submitId), updatedAt := now));
  }

  /** A spawned attempt without receipt leaves its record uncertain, with the reason. */
  lemma UncertaintyIsStored(j: Journal, c: Claim, fence: Option<int>, code: ErrorCode, now: int)
    requires CommitFailure(j, c, fence, true, code, now).Ok?
    ensures
      var k := CommitFailure(j, c, fence, true, code, now).value;
      && c.key in j.records && c.key in k.records && OthersStay(j, k, c.key) && MatchesReservation(j.records[c.key], c)
      && var q := k.records[c.key];
      && q == j.records[c.key].(state := Unknown, errorCode := Some(code), reservation := NoReservation, updatedAt := now,
                                version := q.version)
  {
    hide WriteBack;
    WriteBackShape(j, c.key, UncertainRecord(j.records[c.key], code, now));
  }

  /** An attempt that never spawned gives its key back. */
  lemma UnspentKeyIsFree(j: Journal, c: Claim, fence: Option<int>, code: ErrorCode, now: int)
    requires CommitFailure(j, c, fence, false, code, now).Ok?
    ensures
      var k := CommitFailure(j, c, fence, false, code, now).value;
      && c.key in j.records && MatchesReservation(j.records[c.key], c)
      && c.key !in k.records && OthersStay(j, k, c.key)
  {
    RemovalVersioned(j, c.key, LoadedTicket(j));
  }

  /** A failed clean-up after an accepted submission is noted beside it. */
  lemma WarningIsStored(j: Journal, key: Id, fence: int, now: int)
    requires CleanupWarning(j, key, fence, now).Ok?
    ensures
      var k := CleanupWarning(j, key, fence, now).value;
      && key in j.records && key in k.records && OthersStay(j, k, key)
      && j.records[key].state == Accepted && j.records[key].fence == Some(fence)
      && var q := k.records[key];
      && q == j.records[key].(errorCode := Some(CleanupFailed), updatedAt := now, version := q.version)
  {
    hide WriteBack;
    WriteBackShape(j, key, j.records[key].(errorCode := Some(CleanupFailed), updatedAt := now));
  }

  /** The older interface: the intent is stored under a free key, without task and receipt. */
  lemma IntentIsStored(j: Journal, key: Id, requestHash: Id, now: int, maxActive: nat)
    requires RunBegin(j, key, requestHash, now, maxActive).Ok?
    ensures
      var k := RunBegin(j, key, requestHash, now, maxActive).value;
      && key !in j.records && |Slots(j)| < maxActive
      && key in k.records && OthersStay(j, k, key)
      && var q := k.records[key];
      && q.requestHash == requestHash && q.state == Pending && q.reservation.NoReservation? && q.task.None?
      && q.submitId.None? && q.fence.None? && q.account.None? && q.outputs.None?
      && q.errorCode.None? && q.officialStatus.None? && q.lastObservedAt.None? && q.nextPollAt.None? && q.pollLease.None?
      && q.updatedAt == now && q.version == 1 && !q.hidden
  {
    hide WriteBack;
    WriteBackShape(j, key, IntentRecord(requestHash, now));
  }

  /** It too may only spawn with its fence and account stored. */
  lemma RunPermissionIsStored(j: Journal, key: Id, fence: int, session: Option<Account>)
    requires RunFence(j, key, fence, session).Ok?
    ensures
      var k := RunFence(j, key, fence, session).value;
      && key in j.records && key in k.records && OthersStay(j, k, key)
      && var r, q := j.records[key], k.records[key];
      && q.fence == Some(fence) && (session.Some? ==> q.account == session) && (session.None? ==> q.account == r.account)
      && q == r.(fence := q.fence, account := q.account, version := q.version)
  {
    hide WriteBack;
    var r := j.records[key];
    WriteBackShape(j, key, r.(fence := Some(fence), account := if session.Some? then session else r.account));
  }

  lemma AbandonedIntentIsGone(j: Journal, key: Id)
    requires RunAbandon(j, key).Ok?
    ensures key !in RunAbandon(j, key).value.records && OthersStay(j, RunAbandon(j, key).value, key)
  {
    RemovalVersioned(j, key, LoadedTicket(j));
  }

  // ---- Ending --------------------------------------------------------------------------------------------------

  /** Cancelling stores the cancellation exactly for a task that is neither settled, nor being
      submitted, nor accepted; any other one is left as it is. */
  lemma CancellationIsStored(j: Journal, key: Id, now: int)
    requires CancelTask(j, key, now).Ok?
    ensures
      var k := CancelTask(j, key, now).value;
      && key in j.records && key in k.records && OthersStay(j, k, key)
      && var r, q := j.records[key], k.records[key];
      if r.state == Queued || (r.state == Accepted && r.submitId.None?) then
        q == r.(state := Cancelled, errorCode := Some(LocallyCancelled), queueLease := None, queueTicket := None,
                updatedAt := now, version := q.version)
      else k == j
  {
    hide WriteBack;
    if !IsTerminal(j.records[key].state) && j.records[key].state != Pending
       && !(j.records[key].state == Accepted && j.records[key].submitId.Some?) {
      WriteBackShape(j, key, CancelledRecord(j.records[key], now));
    }
  }

  /** Deleting deletes what was not submitted and hides the rest, and is done once. */
  lemma DeletionIsStored(j: Journal, key: Id, now: int)
    requires DeleteTask(j, key, now).Ok?
    ensures
      var k := DeleteTask(j, key, now).value;
      && key in j.records && key in k.records && OthersStay(j, k, key)
      && var r, q := j.records[key], k.records[key];
      if r.state == Deleted || r.hidden then k == j
      else if r.state == Queued || (r.state == Pending && r.reservation.Reservation? && r.reservation.phase == Reserved) then
        q == r.(state := Deleted, queueLease := None, queueTicket := None, updatedAt := now, version := q.version)
      else q == r.(hidden := true, updatedAt := now, version := q.version)
  {
    hide WriteBack;
    if j.records[key].state != Deleted && !j.records[key].hidden {
      WriteBackShape(j, key, DeletedRecord(j.records[key], now));
    }
  }

  /** Failing stores the reason, unless the task is settled. */
  lemma FailureIsStored(j: Journal, key: Id, code: ErrorCode, now: int)
    requires FailTask(j, key, code, now).Ok?
    ensures
      var k := FailTask(j, key, code, now).value;
      && key in j.records && key in k.records && OthersStay(j, k, key)
      && var r, q := j.records[key], k.records[key];
      if IsTerminal(r.state) then k == j
      else q == r.(state := Failed, errorCode := Some(code), queueLease := None, queueTicket := None, updatedAt := now,
                   version := q.version)
  {
    hide WriteBack;
    if !IsTerminal(j.records[key].state) {
      WriteBackShape(j, key, FailedRecord(j.records[key], code, now));
    }
  }

  /** Recovery settles exactly what nobody owns any more, and says how. */
  lemma RecoverySettles(r: Record, now: int)
    ensures
      var q := RecoverRecord(r, now);
      if r.state == Pending && !(r.reservation.Reservation? && now < r.reservation.expiresAt) then
        && q == r.(state := q.state, errorCode := q.errorCode, reservation := NoReservation, updatedAt := now)
        && (if r.reservation.Reservation? && r.reservation.phase == Reserved
            then q.state == Failed && q.errorCode == Some(Interrupted)
            else q.state == Unknown && (r.task.Some? ==> q.errorCode == Some(SubmissionUnknown))
                 && (r.task.None? ==> q.errorCode == r.errorCode))
      else if r.task.Some? && r.state == Queued && !(r.queueLease.Some? && now < r.queueLease.value.expiresAt) then
        q == r.(state := Failed, errorCode := Some(Interrupted), queueLease := None, queueTicket := None, updatedAt := now)
      else q == r
  {
  }

  /** A process that stops fails the tasks it has queued, and nobody else's. */
  lemma DisposalFailsOwned(j: Journal, ownerId: Id, now: int, key: Id)
    requires Dispose(j, ownerId, now).Ok? && key in j.records
    ensures
      var k := Dispose(j, ownerId, now).value;
      && key in k.records
      && var r, q := j.records[key], k.records[key];
      if r.state == Queued && r.queueLease.Some? && r.queueLease.value.ownerId == ownerId then
        q == r.(state := Failed, errorCode := Some(Interrupted), queueLease := None, queueTicket := None, updatedAt := now,
                version := q.version)
      else q == r
  {
    hide Writable, ValidJournal;
    assert SameRecord(j.records[key], j.records[key]);
    assert OwnedQueued(j.records[key], ownerId) ==> AnyOwnedQueued(j.records, ownerId);
  }

  // ---- Refusals ----------------------------------------------------------------------------------------------

  /** A key is used once: another request under it is a conflict, the same one a replay. The older
      interface, which does not queue, also refuses when no slot is free. */
  lemma UsedKeyIsRefused(
    j: Journal, key: Id, requestHash: Id, task: TaskInfo, ownerId: Id, now: int, leaseMs: nat, ticket: int, maxActive: nat)
    ensures key in j.records ==>
      var why := if j.records[key].requestHash == requestHash then ReplayForbidden else IdempotencyConflict;
      && EnqueueAt(j, key, requestHash, task, ownerId, now, leaseMs, ticket) == Err(why)
      && RunBegin(j, key, requestHash, now, maxActive) == Err(why)
    ensures key !in j.records && |Slots(j)| >= maxActive ==> RunBegin(j, key, requestHash, now, maxActive) == Err(CapacityFull)
  {
  }

  /** Reserving is refused for another request, and for a task that no longer waits. */
  lemma ReservationRefusals(j: Journal, c: Claim, now: int, leaseMs: nat, maxActive: nat)
    ensures c.key !in j.records || j.records[c.key].requestHash != c.requestHash ==>
      ReserveSlot(j, c, now, leaseMs, maxActive) == Err(StateInvalid)
    ensures c.key in j.records && j.records[c.key].requestHash == c.requestHash && j.records[c.key].state != Queued ==>
      ReserveSlot(j, c, now, leaseMs, maxActive) == Err(ReplayForbidden)
  {
  }

  /** The holder of a live reservation is refused the permission under an older fence than the stored
      one, and for another account; and with the permission it is refused the receipt under another
      fence, under another session than it was permitted for, or when its lease is not current. */
  lemma SubmissionRefusals(
    j: Journal, c: Claim, fence: int, session: Option<Account>, submitId: Id, current: bool, now: int, leaseMs: nat)
    requires c.key in j.records && MatchesReservation(j.records[c.key], c) && LiveReservation(j.records[c.key], now)
    ensures
      var r := j.records[c.key];
      && (r.fence.Some? && fence < r.fence.value ==> CommitFence(j, c, fence, session, now, leaseMs) == Err(CliFenced))
      && (session.Some? && r.account.Some? && r.account.value.binding != session.value.binding
          && (r.fence.Some? ==> r.fence.value <= fence) ==>
            CommitFence(j, c, fence, session, now, leaseMs) == Err(AccountChanged))
      && (r.reservation.phase == Reserved || r.fence != Some(fence) ==>
            CommitAccepted(j, c, fence, submitId, session, current, now) == Err(CliFenced))
      && (r.reservation.phase == SpawnPermitted && r.fence == Some(fence) ==>
            && (session.Some? && r.account != session ==>
                  CommitAccepted(j, c, fence, submitId, session, current, now) == Err(AccountChanged))
            && (!current && (session.Some? ==> r.account == session) ==>
                  CommitAccepted(j, c, fence, submitId, session, current, now) == Err(CliFenced)))
  {
  }

  /** There is nothing to cancel or delete under an unknown key, nor a task to cancel behind a record of
      the older interface. */
  lemma UnknownTaskIsRefused(j: Journal, key: Id, now: int)
    requires key in j.records ==> j.records[key].task.None?
    ensures CancelTask(j, key, now) == Err(TaskNotFound)
    ensures key !in j.records ==> DeleteTask(j, key, now) == Err(TaskNotFound)
  {
  }

  // ---- A submission from beginning to end ----------------------------------------------------------------------

  /** What was queued can be reserved by its owner as soon as it has priority. */
  lemma QueuedMayReserve(
    j: Journal, key: Id, requestHash: Id, task: TaskInfo, ownerId: Id, now: int, leaseMs: nat, ticket: int,
    reservationId: Id, later: int, maxActive: nat)
    requires EnqueueAt(j, key, requestHash, task, ownerId, now, leaseMs, ticket).Ok?
    requires Room(EnqueueAt(j, key, requestHash, task, ownerId, now, leaseMs, ticket).value)
    ensures
      var k := EnqueueAt(j, key, requestHash, task, ownerId, now, leaseMs, ticket).value;
      ReserveSlot(k, Claim(key, requestHash, reservationId, ownerId), later, leaseMs, maxActive).Ok?
  {
    hide EnqueueAt, ReserveSlot;
    EnqueueStoresTheTask(j, key, requestHash, task, ownerId, now, leaseMs, ticket);
    EnqueueIsValid(j, key, requestHash, task, ownerId, now, leaseMs, ticket);
    var k := EnqueueAt(j, key, requestHash, task, ownerId, now, leaseMs, ticket).value;
    ReserveIsAccepted(k, Claim(key, requestHash, reservationId, ownerId), later, leaseMs, maxActive);
  }

  lemma EnqueueIsValid(
    j: Journal, key: Id, requestHash: Id, task: TaskInfo, ownerId: Id, now: int, leaseMs: nat, ticket: int)
    requires EnqueueAt(j, key, requestHash, task, ownerId, now, leaseMs, ticket).Ok?
    ensures ValidJournal(EnqueueAt(j, key, requestHash, task, ownerId, now, leaseMs, ticket).value)
  {
  }

  lemma WriteBackIsValid(j: Journal, key: Id, r: Record)
    requires WriteBack(j, key, r).Ok?
    ensures ValidJournal(WriteBack(j, key, r).value)
  {
  }

  /** Whoever has reserved a slot gets the permission to spawn while the reservation lives, under
      any fence that is not older and for any account that is not another one. */
  lemma ReservedMayBePermitted(
    j: Journal, c: Claim, now: int, leaseMs: nat, maxActive: nat, fence: int, session: Option<Account>, later: int)
    requires c.key in j.records && j.records[c.key].fence.None? && j.records[c.key].account.None?
    requires HasPriority(j, now, c.key, maxActive) && ReserveSlot(j, c, now, leaseMs, maxActive).Ok?
    requires Room(ReserveSlot(j, c, now, leaseMs, maxActive).value)
    requires 1 <= fence <= MAX_SAFE_INTEGER && now <= later < now + leaseMs
    requires session.Some? ==> 0 <= session.value.epoch <= MAX_SAFE_INTEGER
    ensures CommitFence(ReserveSlot(j, c, now, leaseMs, maxActive).value, c, fence, session, later, leaseMs).Ok?
  {
    hide CommitFence, HasPriority;
    var k := ReserveSlot(j, c, now, leaseMs, maxActive).value;
    ReservationIsMade(j, c, now, leaseMs, maxActive);
    WriteBackIsValid(j, c.key, ReservedRecord(j.records[c.key], c, now, leaseMs));
    FenceExactly(k, c, fence, session, later, leaseMs);
  }

  /** Whoever has the stored permission stores the receipt, at any later time: paid work is never
      lost to the steps' own checks. */
  lemma PermittedMayStoreReceipt(
    j: Journal, c: Claim, fence: int, session: Option<Account>, now: int, leaseMs: nat, submitId: Id, later: int)
    requires CommitFence(j, c, fence, session, now, leaseMs).Ok?
    requires Room(CommitFence(j, c, fence, session, now, leaseMs).value) && j.records[c.key].task.Some?
    ensures
      CommitAccepted(CommitFence(j, c, fence, session, now, leaseMs).value, c, fence, submitId, session, true, later).Ok?
  {
    hide CommitAccepted;
    var k := CommitFence(j, c, fence, session, now, leaseMs).value;
    PermissionIsStored(j, c, fence, session, now, leaseMs);
    WriteBackIsValid(j, c.key, FencedRecord(j.records[c.key], fence, session, now, leaseMs));
    ReceiptIsAccepted(k, c, fence, submitId, session, later);
  }
}
