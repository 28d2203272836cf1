/** Which steps of the submission protocol leave every record accounted for. */
module HarmlessSteps {
  import opened Prelude
  import opened TaskContract
  import opened JournalRecord
  import opened Journal
  import opened QueueOrder
  import opened RuntimeSteps
  import opened Reconciler
  import opened RecordSteps
  import opened SubmissionProtocol

  // ---- Which steps change records harmlessly -----------------------------------------------------

  lemma WriteBackIsPointwise(j: Journal, k: Id, r: Record)
    requires k in j.records && Harmless(j.records[k], r) && WriteBack(j, k, r).Ok?
    ensures Pointwise(j, WriteBack(j, k, r).value)
  {
    WriteIsPointwise(j, k, r, LoadedTicket(j));
  }

  lemma RecoverIsPointwise(j: Journal, now: int)
    requires ValidJournal(j) && (forall k :: k in j.records ==> Tame(j.records[k])) && Recover(j, now).Ok?
    ensures Pointwise(j, Recover(j, now).value)
  {
    hide Persist, ValidRecord;
    if AnyExpired(j.records, now) {
      forall i | i in j.records ensures Harmless(j.records[i], RecoverAll(j.records, now)[i]) {
        assert ValidRecord(j.records[i]);
        RecoverIsHarmless(j.records[i], now);
      }
      BatchIsPointwise(j, RecoverAll(j.records, now), LoadedTicket(j));
    } else {
      PointwiseRefl(j);
    }
  }

  lemma DisposeIsPointwise(j: Journal, ownerId: Id, now: int)
    requires ValidJournal(j) && Dispose(j, ownerId, now).Ok?
    ensures Pointwise(j, Dispose(j, ownerId, now).value)
  {
    hide Persist, AnyOwnedQueued, Harmless;
    if AnyOwnedQueued(j.records, ownerId) {
      var records := DisposeAll(j.records, ownerId, now);
      forall i | i in j.records ensures Harmless(j.records[i], records[i]) {
        assert ValidRecord(j.records[i]);
        DisposeIsHarmless(j.records[i], ownerId, now);
      }
      BatchIsPointwise(j, records, LoadedTicket(j));
    } else {
      PointwiseRefl(j);
    }
  }

  lemma InitializeAllIsHarmless(records: map<Id, Record>, delays: Id -> nat, now: int)
    ensures forall i :: i in records ==> Harmless(records[i], InitializeAll(records, delays, now)[i])
  {
    forall i | i in records ensures Harmless(records[i], InitializeAll(records, delays, now)[i]) {
      InitializeIsHarmless(records[i], now + delays(i));
    }
  }

  lemma InitializeIsPointwise(j: Journal, delays: Id -> nat, now: int)
    requires ValidJournal(j) && Initialize(j, delays, now).Ok?
    ensures Pointwise(j, Initialize(j, delays, now).value)
  {
    hide ValidJournal, Harmless;
    if exists k :: k in j.records && Eligible(j.records[k]) && j.records[k].nextPollAt.None? {
      InitializeAllIsHarmless(j.records, delays, now);
      BatchIsPointwise(j, InitializeAll(j.records, delays, now), j.nextTicket);
    } else {
      PointwiseRefl(j);
    }
  }

  lemma ReleaseOwnedIsPointwise(j: Journal, ownerId: Id)
    requires ValidJournal(j) && ReleaseOwned(j, ownerId).Ok?
    ensures Pointwise(j, ReleaseOwned(j, ownerId).value)
  {
    hide Persist, ValidJournal;
    if AnyOwned(j.records, ownerId) {
      var records := ReleaseAll(j.records, ownerId);
      forall i | i in j.records ensures Harmless(j.records[i], records[i]) {
        ReleaseOwnedIsHarmless(j.records[i], ownerId);
      }
      BatchIsPointwise(j, records, j.nextTicket);
    } else {
      PointwiseRefl(j);
    }
  }

  lemma RenewQueueIsPointwise(j: Journal, key: Id, hash: Id, ownerId: Id, now: int, leaseMs: nat)
    requires RenewQueueLease(j, key, hash, ownerId, now, leaseMs).Ok?
    ensures Pointwise(j, RenewQueueLease(j, key, hash, ownerId, now, leaseMs).value)
  {
    var lease := j.records[key].queueLease.value.(expiresAt := now + leaseMs);
    QueueRenewalIsHarmless(j.records[key], lease);
    WriteBackIsPointwise(j, key, j.records[key].(queueLease := Some(lease)));
  }

  lemma RenewReservationIsPointwise(j: Journal, c: Claim, now: int, leaseMs: nat)
    requires RenewReservation(j, c, now, leaseMs).Ok?
    ensures Pointwise(j, RenewReservation(j, c, now, leaseMs).value)
  {
    RenewalIsHarmless(j.records[c.key], now, leaseMs);
    WriteBackIsPointwise(j, c.key, RenewedRecord(j.records[c.key], now, leaseMs));
  }

  lemma FenceIsPointwise(j: Journal, c: Claim, fence: int, session: Option<Account>, now: int, leaseMs: nat)
    requires CommitFence(j, c, fence, session, now, leaseMs).Ok?
    ensures Pointwise(j, CommitFence(j, c, fence, session, now, leaseMs).value)
    ensures c.key in j.records && MatchesReservation(j.records[c.key], c)
    ensures PermittedBy(CommitFence(j, c, fence, session, now, leaseMs).value.records[c.key], c)
  {
    var r := FencedRecord(j.records[c.key], fence, session, now, leaseMs);
    FenceIsHarmless(j.records[c.key], fence, session, now, leaseMs);
    WriteBackIsPointwise(j, c.key, r);
    PersistOneInverse(j, c.key, r, LoadedTicket(j));
  }

  lemma AcceptIsPointwise(
    j: Journal, c: Claim, fence: int, submitId: Id, session: Option<Account>, current: bool, now: int)
    requires ValidJournal(j) && CommitAccepted(j, c, fence, submitId, session, current, now).Ok?
    ensures Pointwise(j, CommitAccepted(j, c, fence, submitId, session, current, now).value)
  {
    assert ValidRecord(j.records[c.key]);
    AcceptIsHarmless(j.records[c.key], submitId, now);
    WriteBackIsPointwise(j, c.key, AcceptedRecord(j.records[c.key], submitId, now));
  }

  lemma WarningIsPointwise(j: Journal, key: Id, fence: int, now: int)
    requires CleanupWarning(j, key, fence, now).Ok?
    ensures Pointwise(j, CleanupWarning(j, key, fence, now).value)
  {
    WarningIsHarmless(j.records[key], now);
    WriteBackIsPointwise(j, key, j.records[key].(errorCode := Some(CleanupFailed), updatedAt := now));
  }

  lemma RunFenceIsPointwise(j: Journal, key: Id, fence: int, session: Option<Account>)
    requires key in j.records && OpenIntent(j.records[key]) && RunFence(j, key, fence, session).Ok?
    ensures Pointwise(j, RunFence(j, key, fence, session).value)
    ensures OpenIntent(RunFence(j, key, fence, session).value.records[key])
  {
    var account := if session.Some? then session else j.records[key].account;
    var r := j.records[key].(fence := Some(fence), account := account);
    RunFenceIsHarmless(j.records[key], fence, account);
    WriteBackIsPointwise(j, key, r);
    PersistOneInverse(j, key, r, LoadedTicket(j));
  }

  lemma RunAcceptIsPointwise(j: Journal, key: Id, submitId: Id, now: int)
    requires ValidJournal(j) && key in j.records && OpenIntent(j.records[key]) && RunAccept(j, key, submitId, now).Ok?
    ensures Pointwise(j, RunAccept(j, key, submitId, now).value)
  {
    assert ValidRecord(j.records[key]);
    RunAcceptIsHarmless(j.records[key], submitId, now);
    WriteBackIsPointwise(j, key, j.records[key].(state := Accepted, submitId := Some(submitId), updatedAt := now));
  }

  lemma CancelIsPointwise(j: Journal, key: Id, now: int)
    requires ValidJournal(j) && CancelTask(j, key, now).Ok?
    ensures Pointwise(j, CancelTask(j, key, now).value)
  {
    PointwiseRefl(j);
    assert ValidRecord(j.records[key]);
    if j.records[key].state == Queued {
      CancelIsHarmless(j.records[key], now);
      WriteBackIsPointwise(j, key, CancelledRecord(j.records[key], now));
    }
  }

  lemma DeleteIsPointwise(j: Journal, key: Id, now: int)
    requires ValidJournal(j) && DeleteTask(j, key, now).Ok?
    ensures Pointwise(j, DeleteTask(j, key, now).value)
  {
    PointwiseRefl(j);
    assert ValidRecord(j.records[key]);
    if j.records[key].state != Deleted && !j.records[key].hidden {
      DeleteIsHarmless(j.records[key], now);
      WriteBackIsPointwise(j, key, DeletedRecord(j.records[key], now));
    }
  }

  lemma FailTaskIsPointwise(j: Journal, key: Id, code: ErrorCode, now: int)
    requires ValidJournal(j) && FailTask(j, key, code, now).Ok? && code != Interrupted
    ensures Pointwise(j, FailTask(j, key, code, now).value)
  {
    PointwiseRefl(j);
    assert ValidRecord(j.records[key]);
    if !IsTerminal(j.records[key].state) {
      FailIsHarmless(j.records[key], code, now);
      WriteBackIsPointwise(j, key, FailedRecord(j.records[key], code, now));
    }
  }

  lemma PutStartedIsPointwise(j: Journal, k: Id, at: int)
    requires k in j.records && Put(j, k, Started(j.records[k], at)).Ok?
    ensures Pointwise(j, Put(j, k, Started(j.records[k], at)).value)
  {
    StartIsHarmless(j.records[k], at);
    PutIsPointwise(j, k, Started(j.records[k], at));
  }

  lemma ScheduleIsPointwise(j: Journal, k: Id, at: int)
    requires ValidJournal(j) && Schedule(j, k, at).Ok?
    ensures Pointwise(j, Schedule(j, k, at).value)
  {
    if Schedule(j, k, at) == Ok(j) {
      PointwiseRefl(j);
    } else {
      PutStartedIsPointwise(j, k, at);
    }
  }

  lemma RequestNowIsPointwise(j: Journal, k: Id, now: int)
    requires ValidJournal(j) && RequestNow(j, k, now).Ok?
    ensures Pointwise(j, RequestNow(j, k, now).value)
  {
    if RequestNow(j, k, now) == Ok(j) {
      PointwiseRefl(j);
    } else {
      PutStartedIsPointwise(j, k, now - 1);
    }
  }

  lemma ClaimIsPointwise(j: Journal, k: Id, lease: PollLease, now: int)
    requires ValidJournal(j) && (k in j.records ==> Tame(j.records[k])) && ClaimKey(j, k, lease, now).Ok?
    ensures Pointwise(j, ClaimKey(j, k, lease, now).value)
  {
    PointwiseRefl(j);
    if k in j.records && Due(j.records[k], now) {
      assert ValidRecord(j.records[k]);
      ClaimIsHarmless(j.records[k], lease, now);
      PutIsPointwise(j, k, j.records[k].(pollLease := Some(lease)));
    }
  }

  lemma RenewPollIsPointwise(j: Journal, k: Id, lease: PollLease, at: int)
    requires (k in j.records ==> Tame(j.records[k])) && RenewPollLease(j, k, lease, at).Ok?
    ensures Pointwise(j, RenewPollLease(j, k, lease, at).value)
  {
    PollRenewalIsHarmless(j.records[k], lease.(expiresAt := at));
    PutIsPointwise(j, k, j.records[k].(pollLease := Some(lease.(expiresAt := at))));
  }

  lemma SyncErrorIsPointwise(j: Journal, k: Id, lease: PollLease, code: ErrorCode, when: Agenda, now: int)
    requires ValidJournal(j) && (k in j.records ==> Tame(j.records[k])) && code != Interrupted
    requires CommitSyncError(j, k, lease, code, when, now).Ok?
    ensures Pointwise(j, CommitSyncError(j, k, lease, code, when, now).value)
  {
    PointwiseRefl(j);
    if k in j.records && SameLease(j.records[k], lease) {
      SyncErrorIsHarmless(j.records[k], code, when, now);
      PutIsPointwise(j, k, SyncFailedRecord(j.records[k], code, when, now));
    }
  }

  lemma ReleasePollIsPointwise(j: Journal, k: Id, lease: PollLease)
    requires ValidJournal(j) && ReleasePollLease(j, k, lease).Ok?
    ensures Pointwise(j, ReleasePollLease(j, k, lease).value)
  {
    PointwiseRefl(j);
    if k in j.records && SameLease(j.records[k], lease) {
      PollReleaseIsHarmless(j.records[k]);
      PutIsPointwise(j, k, j.records[k].(pollLease := None));
    }
  }

  lemma ReportIsPointwise(j: Journal, k: Id, lease: PollLease, p: Report, when: Agenda, now: int)
    requires ValidJournal(j) && (k in j.records ==> Tame(j.records[k])) && CommitReport(j, k, lease, p, when, now).Ok?
    ensures Pointwise(j, CommitReport(j, k, lease, p, when, now).value)
  {
    PointwiseRefl(j);
    if k in j.records && SameLease(j.records[k], lease) {
      var r := ObservedRecord(j.records[k], p, when, now);
      assert j.(records := j.records[k := r]) == Journal(j.records[k := r], j.nextTicket);
      PersistOneInverse(j, k, r, j.nextTicket);
      ReportIsHarmless(j.records[k], p, when, now);
      PutIsPointwise(j, k, r);
    }
  }

  /** Steps that neither create nor remove a record nor take a slot. */
  predicate HarmlessStep(a: Action) {
    !(a.DoEnqueue? || a.DoReserve? || a.DoFail? || a.DoRunBegin? || a.DoRunAbandon?)
  }

  lemma HarmlessStepIsPointwise(w: World, a: Action)
    requires JournalInv(w.journal, w.maxActive) && LockInv(w.journal, w.attempts, w.lock)
    requires Enabled(w, a) && HarmlessStep(a) && Effect(w, a).Ok?
    ensures Pointwise(w.journal, Effect(w, a).value)
  {
    var j, now := w.journal, w.now;
    match a
    case Tick(_) => PointwiseRefl(j);
    case DoSpawn(_) => PointwiseRefl(j);
    case DoCrash(_) => PointwiseRefl(j);
    case DoRecover => RecoverIsPointwise(j, now);
    case DoRenewQueue(key, hash, ownerId, leaseMs) => RenewQueueIsPointwise(j, key, hash, ownerId, now, leaseMs);
    case DoRenewReservation(id, leaseMs) => RenewReservationIsPointwise(j, w.attempts[id].claim, now, leaseMs);
    case DoFence(id, fence, session, leaseMs) =>
      FenceIsPointwise(j, w.attempts[id].claim, fence, session, now, leaseMs);
    case DoAccept(id, submitId, session, current) =>
      AcceptIsPointwise(j, w.attempts[id].claim, w.attempts[id].fence, submitId, session, current, now);
    case DoCleanupWarning(key, fence) => WarningIsPointwise(j, key, fence, now);
    case DoCancel(key) => CancelIsPointwise(j, key, now);
    case DoDelete(key) => DeleteIsPointwise(j, key, now);
    case DoFailTask(key, code) => FailTaskIsPointwise(j, key, code, now);
    case DoDispose(ownerId) => DisposeIsPointwise(j, ownerId, now);
    case DoRunFence(id, fence, session) => RunFenceIsPointwise(j, w.attempts[id].claim.key, fence, session);
    case DoRunAccept(id, submitId) => RunAcceptIsPointwise(j, w.attempts[id].claim.key, submitId, now);
    case DoInitialize(delays) => InitializeIsPointwise(j, delays, now);
    case DoSchedule(key, at) => ScheduleIsPointwise(j, key, at);
    case DoRequestNow(key) => RequestNowIsPointwise(j, key, now);
    case DoClaim(key, lease) => ClaimIsPointwise(j, key, lease, now);
    case DoRenewPoll(key, lease, at) => RenewPollIsPointwise(j, key, lease, at);
    case DoReport(key, lease, report, when) => ReportIsPointwise(j, key, lease, report, when, now);
    case DoSyncError(key, lease, code, when) => SyncErrorIsPointwise(j, key, lease, code, when, now);
    case DoReleasePoll(key, lease) => ReleasePollIsPointwise(j, key, lease);
    case DoReleaseOwned(ownerId) => ReleaseOwnedIsPointwise(j, ownerId);
  }
}
