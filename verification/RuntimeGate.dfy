/** The locked steps against the gate that judges every write: which of them the journal accepts.

    The steps and the gate are written independently of each other in the source; these lemmas
    say that a step whose own guards pass is never refused by the gate, except where they give
    the exact condition for a refusal. */
module RuntimeGate {
  import opened Prelude
  import opened TaskContract
  import opened JournalRecord
  import opened Journal
  import opened QueueOrder
  import opened RuntimeSteps

  /** No counter has run out of safe integers. */
  ghost predicate Room(j: Journal) {
    && 1 <= LoadedTicket(j) < MAX_SAFE_INTEGER
    && forall k :: k in j.records ==> j.records[k].version < MAX_SAFE_INTEGER
  }

  /** The shape of a record, whatever version it will be stamped with. */
  predicate Shaped(r: Record) {
    ValidRecord(r.(version := 1))
  }

  lemma StampedShape(r: Record, version: int)
    ensures ValidRecord(r.(version := version)) <==> 1 <= version <= MAX_SAFE_INTEGER && Shaped(r)
  {
  }

  /** A write-back is accepted exactly when the record progresses and is well shaped. */
  lemma WriteBackExactly(j: Journal, k: Id, r: Record)
    requires ValidJournal(j) && Room(j)
    requires k !in j.records ==> |j.records| < MAX_RECORDS
    ensures WriteBack(j, k, r) ==
      if (k in j.records ==> Progresses(j.records[k], r)) && Shaped(r)
      then Ok(Journal(j.records[k := r.(version := NextVersion(j, k, r))], LoadedTicket(j)))
      else Err(StateInvalid)
  {
    PersistOne(j, k, r, LoadedTicket(j));
    StampedShape(r, NextVersion(j, k, r));
    assert 1 <= NextVersion(j, k, r) <= MAX_SAFE_INTEGER by {
      if k in j.records { assert ValidRecord(j.records[k]); }
    }
  }

  /** What the gate and the shape check ask of a rewrite, whatever its version. */
  predicate Legal(r: Record, q: Record) {
    Progresses(r, q) && Shaped(q)
  }

  lemma RewriteExactly(j: Journal, k: Id, q: Record)
    requires ValidJournal(j) && Room(j) && k in j.records
    ensures ValidRecord(j.records[k])
    ensures WriteBack(j, k, q).Ok? <==> Legal(j.records[k], q)
  {
    WriteBackExactly(j, k, q);
  }

  // ---- Recovery ------------------------------------------------------------------------------------

  /** A reserved intent without task, which no step creates: failing it would be ill shaped. */
  predicate StrayIntent(r: Record) {
    r.task.None? && r.state == Pending && r.reservation.Reservation? && r.reservation.phase == Reserved
  }

  lemma RecoverRecordProgresses(r: Record, now: int)
    ensures Progresses(r, RecoverRecord(r, now))
  {
  }

  lemma RecoveredPendingShape(r: Record, now: int)
    requires ValidRecord(r) && r.state == Pending && !LiveReservation(r, now)
    ensures ValidRecord(RecoverRecord(r, now)) <==> !StrayIntent(r)
  {
  }

  lemma RecoveredQueuedShape(r: Record, now: int)
    requires ValidRecord(r) && r.state == Queued
    ensures ValidRecord(RecoverRecord(r, now))
  {
  }

  lemma RecoverRecordShape(r: Record, now: int)
    requires ValidRecord(r)
    ensures ValidRecord(RecoverRecord(r, now)) <==> !StrayIntent(r) || LiveReservation(r, now)
  {
    if r.state == Pending && !LiveReservation(r, now) {
      RecoveredPendingShape(r, now);
    } else if r.state == Queued {
      RecoveredQueuedShape(r, now);
    }
  }

  lemma RestampedShape(r: Record, version: int)
    requires ValidRecord(r) && 1 <= version <= MAX_SAFE_INTEGER
    ensures ValidRecord(r.(version := version))
  {
  }

  /** A queue entry is safe from recovery exactly until its lease expires; then it is interrupted. */
  lemma QueuedIsSafeExactly(hash: Id, task: TaskInfo, ownerId: Id, expiresAt: int, ticket: int, now: int)
    ensures
      var r := QueuedRecord(hash, task, ownerId, expiresAt, ticket);
      && (RecoverRecord(r, now) == r <==> now < expiresAt)
      && (expiresAt <= now ==> RecoverRecord(r, now).state == Failed && RecoverRecord(r, now).errorCode == Some(Interrupted))
  {
  }

  /** A reservation is safe exactly until it expires; what recovery then makes of it tells whether
      the permission to spawn was durable: interrupted before submission, or uncertain. */
  lemma ReservationIsSafeExactly(r: Record, c: Claim, fence: int, session: Option<Account>, start: int, leaseMs: nat, now: int)
    requires r.state == Queued
    ensures
      var reserved := ReservedRecord(r, c, start, leaseMs);
      && (RecoverRecord(reserved, now) == reserved <==> now < start + leaseMs)
      && (start + leaseMs <= now ==>
            RecoverRecord(reserved, now).state == Failed && RecoverRecord(reserved, now).errorCode == Some(Interrupted))
    ensures
      var permitted := FencedRecord(ReservedRecord(r, c, start, leaseMs), fence, session, start, leaseMs);
      && (RecoverRecord(permitted, now) == permitted <==> now < start + leaseMs)
      && (start + leaseMs <= now ==> RecoverRecord(permitted, now).state == Unknown)
  {
  }

  /** A batch rewrite that keeps every key is accepted when each record progresses and is valid. */
  lemma BatchIsAccepted(j: Journal, records: map<Id, Record>)
    requires ValidJournal(j) && Room(j) && records.Keys == j.records.Keys
    requires forall k :: k in records ==> Progresses(j.records[k], records[k])
    requires forall k :: k in records ==> ValidRecord(records[k])
    ensures Persist(j, Journal(records, LoadedTicket(j))).Ok?
  {
    var payload := Journal(records, LoadedTicket(j));
    assert Writable(j, payload);
    BatchIsValid(j, payload);
  }

  lemma VersionsStayPositive(j: Journal, k: Id, r: Record)
    requires k in j.records && ValidRecord(j.records[k]) && j.records[k].version < MAX_SAFE_INTEGER
    ensures 1 <= NextVersion(j, k, r) <= MAX_SAFE_INTEGER
  {
  }

  lemma BatchIsValid(j: Journal, payload: Journal)
    requires ValidJournal(j) && payload.records.Keys == j.records.Keys
    requires 1 <= payload.nextTicket <= MAX_SAFE_INTEGER
    requires forall k :: k in j.records ==> j.records[k].version < MAX_SAFE_INTEGER
    requires forall k :: k in payload.records ==> ValidRecord(payload.records[k])
    ensures ValidJournal(Versioned(j, payload))
  {
    hide ValidRecord;
    var v := Versioned(j, payload);
    forall k | k in v.records ensures ValidRecord(v.records[k]) {
      StampedIsValid(j, k, payload.records[k]);
    }
    assert v.records.Keys == j.records.Keys;
    SameKeysSameSize(v.records, j.records);
  }

  lemma StampedIsValid(j: Journal, k: Id, r: Record)
    requires k in j.records && ValidRecord(j.records[k]) && j.records[k].version < MAX_SAFE_INTEGER && ValidRecord(r)
    ensures ValidRecord(r.(version := NextVersion(j, k, r)))
  {
    VersionsStayPositive(j, k, r);
    RestampedShape(r, NextVersion(j, k, r));
  }

  lemma SameKeysSameSize(a: map<Id, Record>, b: map<Id, Record>)
    requires a.Keys == b.Keys
    ensures |a| == |b|
  {
    assert |a| == |a.Keys| && |b| == |b.Keys|;
  }

  lemma RecoverAllProgresses(records: map<Id, Record>, now: int)
    ensures forall k :: k in records ==> Progresses(records[k], RecoverAll(records, now)[k])
  {
    forall k | k in records ensures Progresses(records[k], RecoverAll(records, now)[k]) {
      RecoverRecordProgresses(records[k], now);
    }
  }

  lemma RecoverAllShaped(records: map<Id, Record>, now: int)
    requires forall k :: k in records ==> ValidRecord(records[k])
    requires forall k :: k in records ==> !StrayIntent(records[k])
    ensures forall k :: k in records ==> ValidRecord(RecoverAll(records, now)[k])
  {
    forall k | k in records ensures ValidRecord(RecoverAll(records, now)[k]) {
      RecoverRecordShape(records[k], now);
    }
  }

  /** Recovery inside a reload is accepted on every valid journal without stray intents. */
  lemma RecoveryIsAccepted(j: Journal, now: int)
    requires ValidJournal(j) && Room(j)
    requires forall k :: k in j.records ==> !StrayIntent(j.records[k])
    ensures Recover(j, now).Ok?
  {
    if AnyExpired(j.records, now) {
      RecoverAllProgresses(j.records, now);
      RecoverAllShaped(j.records, now);
      BatchIsAccepted(j, RecoverAll(j.records, now));
    }
  }

  lemma DisposeRecordIsLegal(r: Record, ownerId: Id, now: int)
    requires ValidRecord(r) && (OwnedQueued(r, ownerId) ==> r.task.Some?)
    ensures Progresses(r, DisposeRecord(r, ownerId, now)) && ValidRecord(DisposeRecord(r, ownerId, now))
  {
  }

  lemma DisposeAllIsLegal(records: map<Id, Record>, ownerId: Id, now: int)
    requires forall k :: k in records ==> ValidRecord(records[k])
    requires forall k :: k in records && OwnedQueued(records[k], ownerId) ==> records[k].task.Some?
    ensures forall k :: k in records ==> Progresses(records[k], DisposeAll(records, ownerId, now)[k])
    ensures forall k :: k in records ==> ValidRecord(DisposeAll(records, ownerId, now)[k])
  {
    forall k | k in records
      ensures Progresses(records[k], DisposeAll(records, ownerId, now)[k])
      ensures ValidRecord(DisposeAll(records, ownerId, now)[k])
    {
      DisposeRecordIsLegal(records[k], ownerId, now);
    }
  }

  lemma DisposeIsAccepted(j: Journal, ownerId: Id, now: int)
    requires ValidJournal(j) && Room(j)
    requires forall k :: k in j.records && OwnedQueued(j.records[k], ownerId) ==> j.records[k].task.Some?
    ensures Dispose(j, ownerId, now).Ok?
  {
    if AnyOwnedQueued(j.records, ownerId) {
      DisposeAllIsLegal(j.records, ownerId, now);
      BatchIsAccepted(j, DisposeAll(j.records, ownerId, now));
    }
  }

  // ---- Queueing and submitting -----------------------------------------------------------------------

  lemma NewRecordIsAccepted(j: Journal, key: Id, r: Record, ticket: int)
    requires ValidJournal(j) && key !in j.records && |j.records| < MAX_RECORDS && 1 <= ticket <= MAX_SAFE_INTEGER
    requires ValidRecord(r) && r.version == 1
    ensures Persist(j, Journal(j.records[key := r], ticket)).Ok?
  {
    PersistOne(j, key, r, ticket);
    assert r.(version := NextVersion(j, key, r)) == r;
  }

  lemma QueuedRecordIsValid(requestHash: Id, task: TaskInfo, ownerId: Id, expiresAt: int, ticket: int)
    requires task.mode != Audio && 1 <= ticket <= MAX_SAFE_INTEGER
    ensures ValidRecord(QueuedRecord(requestHash, task, ownerId, expiresAt, ticket))
  {
  }

  lemma EnqueueAtIsAccepted(
    j: Journal, key: Id, requestHash: Id, task: TaskInfo, ownerId: Id, now: int, leaseMs: nat, ticket: int)
    requires ValidJournal(j) && |j.records| < MAX_RECORDS && task.mode != Audio
    requires key !in j.records && 1 <= ticket < MAX_SAFE_INTEGER
    ensures EnqueueAt(j, key, requestHash, task, ownerId, now, leaseMs, ticket).Ok?
  {
    hide Persist;
    QueuedRecordIsValid(requestHash, task, ownerId, now + leaseMs, ticket);
    NewRecordIsAccepted(j, key, QueuedRecord(requestHash, task, ownerId, now + leaseMs, ticket), ticket + 1);
  }

  lemma EnqueueIsAccepted(
    j: Journal, key: Id, requestHash: Id, task: TaskInfo, ownerId: Id, now: int, leaseMs: nat)
    requires ValidJournal(j) && Room(j) && |j.records| < MAX_RECORDS && task.mode != Audio
    requires key !in j.records
    ensures EnqueueNew(j, key, requestHash, task, ownerId, now, leaseMs).Ok?
  {
    EnqueueAtIsAccepted(j, key, requestHash, task, ownerId, now, leaseMs, LoadedTicket(j));
  }

  lemma QueueRenewalIsLegalExactly(r: Record, expiresAt: int)
    requires ValidRecord(r) && r.state == Queued && r.queueLease.Some?
    ensures Legal(r, r.(queueLease := Some(r.queueLease.value.(expiresAt := expiresAt)))) <==>
      r.queueLease.value.expiresAt <= expiresAt
  {
  }

  /** Renewing is accepted by a clock that does not go back: the old expiry is not later than the
      new one. That is also necessary, except that an expired lease is refused first. */
  lemma RenewQueueLeaseExactly(
    j: Journal, key: Id, requestHash: Id, ownerId: Id, now: int, leaseMs: nat)
    requires ValidJournal(j) && Room(j)
    requires key in j.records && j.records[key].requestHash == requestHash && OwnedQueued(j.records[key], ownerId)
    requires LiveQueueLease(j.records[key], now)
    ensures RenewQueueLease(j, key, requestHash, ownerId, now, leaseMs).Ok? <==>
      j.records[key].queueLease.value.expiresAt <= now + leaseMs
  {
    hide Room, Progresses, Shaped, Legal, WriteBack, RenewQueueLease;
    var r := j.records[key];
    var q := r.(queueLease := Some(r.queueLease.value.(expiresAt := now + leaseMs)));
    QueueRenewalIsLegalExactly(r, now + leaseMs);
    QueueRenewalIsWrittenBack(j, key, requestHash, ownerId, now, leaseMs, q);
    RewriteExactly(j, key, q);
  }

  lemma QueueRenewalIsWrittenBack(j: Journal, key: Id, requestHash: Id, ownerId: Id, now: int, leaseMs: nat, q: Record)
    requires key in j.records && j.records[key].requestHash == requestHash && OwnedQueued(j.records[key], ownerId)
    requires LiveQueueLease(j.records[key], now)
    requires q == j.records[key].(queueLease := Some(j.records[key].queueLease.value.(expiresAt := now + leaseMs)))
    ensures RenewQueueLease(j, key, requestHash, ownerId, now, leaseMs) == WriteBack(j, key, q)
  {
  }

  lemma ReservedRecordIsLegal(r: Record, c: Claim, now: int, leaseMs: nat)
    requires ValidRecord(r) && r.state == Queued
    ensures Progresses(r, ReservedRecord(r, c, now, leaseMs)) && Shaped(ReservedRecord(r, c, now, leaseMs))
  {
  }

  lemma ReserveIsAccepted(j: Journal, c: Claim, now: int, leaseMs: nat, maxActive: nat)
    requires ValidJournal(j) && Room(j)
    requires c.key in j.records && j.records[c.key].requestHash == c.requestHash && j.records[c.key].state == Queued
    ensures ReserveSlot(j, c, now, leaseMs, maxActive).Ok?
  {
    ReservedRecordIsLegal(j.records[c.key], c, now, leaseMs);
    WriteBackExactly(j, c.key, ReservedRecord(j.records[c.key], c, now, leaseMs));
  }

  lemma RenewalIsLegalExactly(r: Record, now: int, leaseMs: nat)
    requires ValidRecord(r) && r.state == Pending && r.reservation.Reservation?
    ensures Legal(r, RenewedRecord(r, now, leaseMs)) <==> r.reservation.expiresAt <= now + leaseMs
  {
  }

  lemma RenewReservationExactly(j: Journal, c: Claim, now: int, leaseMs: nat)
    requires ValidJournal(j) && Room(j)
    requires c.key in j.records && MatchesReservation(j.records[c.key], c) && LiveReservation(j.records[c.key], now)
    ensures RenewReservation(j, c, now, leaseMs).Ok? <==> j.records[c.key].reservation.expiresAt <= now + leaseMs
  {
    RewriteExactly(j, c.key, RenewedRecord(j.records[c.key], now, leaseMs));
    RenewalIsLegalExactly(j.records[c.key], now, leaseMs);
  }

  lemma FenceIsLegalExactly(r: Record, fence: int, session: Option<Account>, now: int, leaseMs: nat)
    requires ValidRecord(r) && r.state == Pending && r.reservation.Reservation? && 1 <= fence <= MAX_SAFE_INTEGER
    requires session.Some? ==> 0 <= session.value.epoch <= MAX_SAFE_INTEGER
    requires r.fence.Some? ==> r.fence.value <= fence
    requires session.Some? && r.account.Some? ==> r.account.value.binding == session.value.binding
    ensures Legal(r, FencedRecord(r, fence, session, now, leaseMs)) <==>
      && r.reservation.expiresAt <= now + leaseMs
      && (session.Some? && r.account.Some? ==> r.account.value.epoch <= session.value.epoch)
  {
  }

  /** The permission to spawn is accepted whenever its own guards pass, the reservation does not
      shrink, and a rebound account does not take the session epoch back. */
  lemma FenceExactly(j: Journal, c: Claim, fence: int, session: Option<Account>, now: int, leaseMs: nat)
    requires ValidJournal(j) && Room(j)
    requires 1 <= fence <= MAX_SAFE_INTEGER
    requires session.Some? ==> 0 <= session.value.epoch <= MAX_SAFE_INTEGER
    requires c.key in j.records && MatchesReservation(j.records[c.key], c) && LiveReservation(j.records[c.key], now)
    requires j.records[c.key].fence.Some? ==> j.records[c.key].fence.value <= fence
    requires session.Some? && j.records[c.key].account.Some? ==>
      j.records[c.key].account.value.binding == session.value.binding
    ensures
      var r := j.records[c.key];
      CommitFence(j, c, fence, session, now, leaseMs).Ok? <==>
        && r.reservation.expiresAt <= now + leaseMs
        && (session.Some? && r.account.Some? ==> r.account.value.epoch <= session.value.epoch)
  {
    RewriteExactly(j, c.key, FencedRecord(j.records[c.key], fence, session, now, leaseMs));
    FenceIsLegalExactly(j.records[c.key], fence, session, now, leaseMs);
  }

  lemma ReceiptIsLegal(r: Record, submitId: Id, now: int)
    requires ValidRecord(r) && r.state == Pending && r.task.Some?
    ensures Legal(r, AcceptedRecord(r, submitId, now))
  {
  }

  /** A receipt is always accepted: the journal never refuses paid work. */
  lemma ReceiptIsAccepted(j: Journal, c: Claim, fence: int, submitId: Id, session: Option<Account>, now: int)
    requires ValidJournal(j) && Room(j)
    requires c.key in j.records && MatchesReservation(j.records[c.key], c)
    requires j.records[c.key].reservation.phase == SpawnPermitted && j.records[c.key].fence == Some(fence)
    requires session.Some? ==> j.records[c.key].account == session
    requires j.records[c.key].task.Some?
    ensures CommitAccepted(j, c, fence, submitId, session, true, now).Ok?
  {
    RewriteExactly(j, c.key, AcceptedRecord(j.records[c.key], submitId, now));
    ReceiptIsLegal(j.records[c.key], submitId, now);
  }

  /** An attempt that never spawned gives its key back without a trace. */
  lemma UnspawnedFailureRemoves(j: Journal, c: Claim, fence: Option<int>, code: ErrorCode, now: int)
    requires ValidJournal(j) && Room(j)
    requires c.key in j.records && MatchesReservation(j.records[c.key], c)
    requires fence.Some? ==> j.records[c.key].fence == fence
    ensures CommitFailure(j, c, fence, false, code, now) == Ok(Journal(j.records - {c.key}, LoadedTicket(j)))
  {
    assert ValidRecord(j.records[c.key]);
    PersistRemoval(j, c.key, LoadedTicket(j));
  }

  lemma UncertaintyIsLegalExactly(r: Record, code: ErrorCode, now: int)
    requires ValidRecord(r) && r.state == Pending
    ensures Legal(r, UncertainRecord(r, code, now)) <==> r.task.Some?
  {
  }

  /** An attempt that spawned makes its record uncertain; the write is refused exactly for a
      record without task. */
  lemma SpawnedFailureExactly(j: Journal, c: Claim, fence: Option<int>, code: ErrorCode, now: int)
    requires ValidJournal(j) && Room(j)
    requires c.key in j.records && MatchesReservation(j.records[c.key], c)
    requires fence.Some? ==> j.records[c.key].fence == fence
    ensures CommitFailure(j, c, fence, true, code, now).Ok? <==> j.records[c.key].task.Some?
  {
    RewriteExactly(j, c.key, UncertainRecord(j.records[c.key], code, now));
    UncertaintyIsLegalExactly(j.records[c.key], code, now);
  }

  // ---- Ending tasks ------------------------------------------------------------------------------------

  lemma CancellationIsLegal(r: Record, now: int)
    requires ValidRecord(r) && r.task.Some? && !IsTerminal(r.state) && r.state != Pending
    ensures Legal(r, CancelledRecord(r, now))
  {
  }

  lemma CancelIsAccepted(j: Journal, key: Id, now: int)
    requires ValidJournal(j) && Room(j) && key in j.records && j.records[key].task.Some?
    ensures CancelTask(j, key, now).Ok?
  {
    RewriteExactly(j, key, CancelledRecord(j.records[key], now));
    var r := j.records[key];
    if !IsTerminal(r.state) && r.state != Pending { CancellationIsLegal(r, now); }
  }

  lemma DeletionIsLegalExactly(r: Record, now: int)
    requires ValidRecord(r) && r.task.Some?
    ensures Legal(r, DeletedRecord(r, now)) <==>
      !(r.state == Pending && r.reservation.Reservation? && r.reservation.phase == Reserved)
  {
  }

  /** `deleteTask` is refused exactly for a task whose reservation has not permitted a spawn yet:
      the deleted record would keep the reservation, which only a pending one may have. */
  lemma DeleteExactly(j: Journal, key: Id, now: int)
    requires ValidJournal(j) && Room(j) && key in j.records && j.records[key].task.Some?
    ensures
      var r := j.records[key];
      DeleteTask(j, key, now).Err? <==>
        !r.hidden && r.state == Pending && r.reservation.Reservation? && r.reservation.phase == Reserved
  {
    RewriteExactly(j, key, DeletedRecord(j.records[key], now));
    DeletionIsLegalExactly(j.records[key], now);
  }

  lemma FailureIsLegalExactly(r: Record, code: ErrorCode, now: int)
    requires ValidRecord(r) && r.task.Some? && !IsTerminal(r.state)
    ensures Legal(r, FailedRecord(r, code, now)) <==> !(r.state == Pending && !r.reservation.NoReservation?)
  {
  }

  /** `failTask` is refused exactly for a pending record that still has a reservation. */
  lemma FailTaskExactly(j: Journal, key: Id, code: ErrorCode, now: int)
    requires ValidJournal(j) && Room(j) && key in j.records && j.records[key].task.Some?
    ensures
      var r := j.records[key];
      FailTask(j, key, code, now).Err? <==> r.state == Pending && !r.reservation.NoReservation?
  {
    RewriteExactly(j, key, FailedRecord(j.records[key], code, now));
    if !IsTerminal(j.records[key].state) { FailureIsLegalExactly(j.records[key], code, now); }
  }

  // ---- The older interface -------------------------------------------------------------------------------

  /** The older interface's own attempt to record an uncertain submission is always refused: such
      a record has no task and may not carry an error code. Its pending intent stays on disk,
      and the next reload turns it into an uncertain one. */
  lemma RunUncertainIsRefused(j: Journal, key: Id, code: ErrorCode, now: int)
    requires ValidJournal(j) && Room(j) && key in j.records && j.records[key].task.None?
    ensures RunUncertain(j, key, code, now) == Err(StateInvalid)
    ensures j.records[key].state == Pending && j.records[key].reservation.NoReservation? ==>
      RecoverRecord(j.records[key], now).state == Unknown
  {
    hide Room, Progresses, Persist;
    WriteBackExactly(j, key,
      j.records[key].(state := Unknown, errorCode := Some(code), updatedAt := now, submitId := None));
  }

  lemma RunBeginIsAccepted(j: Journal, key: Id, requestHash: Id, now: int, maxActive: nat)
    requires ValidJournal(j) && Room(j) && |j.records| < MAX_RECORDS
    requires key !in j.records && |Slots(j)| < maxActive
    ensures RunBegin(j, key, requestHash, now, maxActive).Ok?
  {
    WriteBackExactly(j, key, IntentRecord(requestHash, now));
  }

  /** A fresh intent of the older interface. */
  predicate FreshIntent(r: Record) {
    r.task.None? && r.state == Pending && r.fence.None? && r.account.None? && r.reservation.NoReservation?
  }

  lemma RunFenceIsLegal(r: Record, fence: int, account: Option<Account>)
    requires ValidRecord(r) && FreshIntent(r) && 1 <= fence <= MAX_SAFE_INTEGER
    requires account.Some? ==> 0 <= account.value.epoch <= MAX_SAFE_INTEGER
    ensures Legal(r, r.(fence := Some(fence), account := account))
  {
  }

  lemma RunFenceIsAccepted(j: Journal, key: Id, fence: int, session: Option<Account>)
    requires ValidJournal(j) && Room(j)
    requires 1 <= fence <= MAX_SAFE_INTEGER
    requires session.Some? ==> 0 <= session.value.epoch <= MAX_SAFE_INTEGER
    requires key in j.records && FreshIntent(j.records[key])
    ensures RunFence(j, key, fence, session).Ok?
  {
    var r := j.records[key];
    var account := if session.Some? then session else r.account;
    RewriteExactly(j, key, r.(fence := Some(fence), account := account));
    RunFenceIsLegal(r, fence, account);
  }

  lemma RunReceiptIsLegal(r: Record, submitId: Id, now: int)
    requires ValidRecord(r) && r.task.None? && r.state == Pending && r.reservation.NoReservation?
    ensures Legal(r, r.(state := Accepted, submitId := Some(submitId), updatedAt := now))
  {
  }

  lemma RunReceiptIsAccepted(j: Journal, key: Id, submitId: Id, now: int)
    requires ValidJournal(j) && Room(j)
    requires key in j.records && j.records[key].task.None? && j.records[key].state == Pending
    requires j.records[key].reservation.NoReservation?
    ensures RunAccept(j, key, submitId, now).Ok?
  {
    var r := j.records[key];
    RewriteExactly(j, key, r.(state := Accepted, submitId := Some(submitId), updatedAt := now));
    RunReceiptIsLegal(r, submitId, now);
  }

  /** Giving a key back is accepted exactly while its record is still pending. */
  lemma RunAbandonExactly(j: Journal, key: Id)
    requires ValidJournal(j) && Room(j) && key in j.records
    ensures RunAbandon(j, key).Ok? <==> j.records[key].state == Pending
  {
    assert ValidRecord(j.records[key]);
    PersistRemoval(j, key, LoadedTicket(j));
  }
}
