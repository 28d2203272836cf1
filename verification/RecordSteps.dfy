/** What the locked steps do to a single record, seen by the submission protocol: whether an
    attempt that may have started the provider process is still accounted for. */
module RecordSteps {
  import opened Prelude
  import opened TaskContract
  import opened JournalRecord
  import opened Journal
  import opened QueueOrder
  import opened RuntimeSteps
  import opened Reconciler

  predicate Settled(r: Record) {
    r.state != Queued && r.state != Pending
  }

  /** Records that promise that their provider process was never started: deleted before
      submission, interrupted before submission, or cancelled locally. */
  predicate NeverSpawned(r: Record) {
    || r.state == Deleted
    || (r.state == Failed && r.errorCode == Some(Interrupted))
    || (r.state == Cancelled && r.errorCode == Some(LocallyCancelled))
  }

  /** A record that may stand for a started process: it is settled, and not by one of those. */
  predicate Accounted(r: Record) {
    Settled(r) && !NeverSpawned(r)
  }

  predicate PermittedBy(r: Record, c: Claim) {
    && MatchesReservation(r, c)
    && r.reservation.phase == SpawnPermitted
  }

  predicate OpenIntent(r: Record) {
    r.state == Pending && r.reservation.NoReservation?
  }

  /** Properties of every record of a journal that started empty. */
  predicate Tame(r: Record) {
    && (r.state == Unknown ==> r.submitId.None?)
    && (r.pollLease.Some? ==>
          && r.submitId.Some? && r.task.Some? && r.outputs.None? && !NeverSpawned(r)
          && (r.state == Accepted || r.state == Succeeded || r.state == Failed))
    && (r.queueTicket.Some? ==> r.state == Queued)
    && (r.task.None? ==> !r.reservation.Reservation?)
    && (r.lastObservedAt.Some? ==> Settled(r))
    && !r.reservation.LegacyReservation?
  }

  /** Observation times never fall. */
  predicate ObservesOn(r: Record, q: Record) {
    r.lastObservedAt.Some? ==> q.lastObservedAt.Some? && r.lastObservedAt.value <= q.lastObservedAt.value
  }

  /** The step from `r` to `q` loses track of no attempt and forgets no promise. */
  ghost predicate Keeps(r: Record, q: Record) {
    && (Accounted(r) ==> Accounted(q))
    && (forall c :: PermittedBy(r, c) ==> PermittedBy(q, c) || Accounted(q))
    && (OpenIntent(r) ==> OpenIntent(q) || Accounted(q))
    && (NeverSpawned(r) ==> NeverSpawned(q))
  }

  /** It takes no slot and no ticket either, and forgets no observation. */
  ghost predicate Harmless(r: Record, q: Record) {
    && Keeps(r, q)
    && (ReservesSlot(q) ==> ReservesSlot(r))
    && (q.queueTicket == r.queueTicket || q.queueTicket.None?)
    && ObservesOn(r, q)
    && (Tame(r) ==> Tame(q))
  }

  lemma HarmlessStamp(r: Record, q: Record, version: int)
    requires Harmless(r, q)
    ensures Harmless(r, q.(version := version))
  {
    var s := q.(version := version);
    assert forall c :: PermittedBy(q, c) ==> PermittedBy(s, c);
  }

  lemma HarmlessRefl(r: Record)
    ensures Harmless(r, r)
  {
  }

  lemma RecoverIsHarmless(r: Record, now: int)
    requires ValidRecord(r) && Tame(r)
    ensures Harmless(r, RecoverRecord(r, now))
  {
  }

  lemma QueueRenewalIsHarmless(r: Record, lease: QueueLease)
    requires r.state == Queued
    ensures Harmless(r, r.(queueLease := Some(lease)))
  {
  }

  lemma RenewalIsHarmless(r: Record, now: int, leaseMs: nat)
    requires r.state == Pending && r.reservation.Reservation?
    ensures Harmless(r, RenewedRecord(r, now, leaseMs))
  {
  }

  lemma FenceIsHarmless(r: Record, fence: int, session: Option<Account>, now: int, leaseMs: nat)
    requires r.state == Pending && r.reservation.Reservation?
    ensures Harmless(r, FencedRecord(r, fence, session, now, leaseMs))
  {
  }

  lemma DisposeIsHarmless(r: Record, ownerId: Id, now: int)
    requires ValidRecord(r)
    ensures Harmless(r, DisposeRecord(r, ownerId, now))
  {
    if OwnedQueued(r, ownerId) {
      FailIsHarmless(r, Interrupted, now);
    } else {
      HarmlessRefl(r);
    }
  }

  lemma AcceptIsHarmless(r: Record, submitId: Id, now: int)
    requires ValidRecord(r) && r.state == Pending
    ensures Harmless(r, AcceptedRecord(r, submitId, now))
  {
  }

  lemma UncertainIsHarmless(r: Record, code: ErrorCode, now: int)
    requires ValidRecord(r) && r.state == Pending
    ensures Harmless(r, UncertainRecord(r, code, now))
  {
  }

  lemma WarningIsHarmless(r: Record, now: int)
    requires r.state == Accepted
    ensures Harmless(r, r.(errorCode := Some(CleanupFailed), updatedAt := now))
  {
  }

  lemma CancelIsHarmless(r: Record, now: int)
    requires ValidRecord(r) && r.state == Queued
    ensures Harmless(r, CancelledRecord(r, now))
  {
  }

  lemma DeleteIsHarmless(r: Record, now: int)
    ensures ValidRecord(r) ==> Harmless(r, DeletedRecord(r, now))
  {
  }

  lemma FailIsHarmless(r: Record, code: ErrorCode, now: int)
    requires ValidRecord(r) && !IsTerminal(r.state) && (code != Interrupted || r.state == Queued)
    ensures Harmless(r, FailedRecord(r, code, now))
  {
  }

  lemma RunFenceIsHarmless(r: Record, fence: int, account: Option<Account>)
    requires OpenIntent(r)
    ensures Harmless(r, r.(fence := Some(fence), account := account))
  {
  }

  lemma RunAcceptIsHarmless(r: Record, submitId: Id, now: int)
    requires ValidRecord(r) && OpenIntent(r)
    ensures Harmless(r, r.(state := Accepted, submitId := Some(submitId), updatedAt := now))
  {
  }

  // ---- Polling -------------------------------------------------------------------------------------

  lemma StartIsHarmless(r: Record, at: int)
    ensures Harmless(r, Started(r, at))
  {
    assert forall c :: PermittedBy(r, c) ==> PermittedBy(Started(r, at), c);
  }

  lemma ClaimIsHarmless(r: Record, lease: PollLease, now: int)
    requires Due(r, now) && ValidRecord(r) && Tame(r)
    ensures Harmless(r, r.(pollLease := Some(lease)))
  {
  }

  lemma PollRenewalIsHarmless(r: Record, lease: PollLease)
    requires r.pollLease.Some? && Tame(r)
    ensures Harmless(r, r.(pollLease := Some(lease)))
  {
  }

  lemma PollReleaseIsHarmless(r: Record)
    ensures Harmless(r, r.(pollLease := None))
  {
    assert forall c :: PermittedBy(r, c) ==> PermittedBy(r.(pollLease := None), c);
  }

  lemma SyncErrorIsHarmless(r: Record, code: ErrorCode, when: Agenda, now: int)
    requires r.pollLease.Some? && Tame(r) && code != Interrupted
    ensures Harmless(r, SyncFailedRecord(r, code, when, now))
  {
  }

  lemma ReportIsHarmless(r: Record, p: Report, when: Agenda, now: int)
    requires r.pollLease.Some? && Tame(r) && Progresses(r, ObservedRecord(r, p, when, now))
    ensures Harmless(r, ObservedRecord(r, p, when, now))
  {
  }

  lemma InitializeIsHarmless(r: Record, at: int)
    ensures Harmless(r, InitializeRecord(r, at))
  {
    if Eligible(r) && r.nextPollAt.None? {
      StartIsHarmless(r, at);
    } else {
      HarmlessRefl(r);
    }
  }

  lemma ReleaseOwnedIsHarmless(r: Record, ownerId: Id)
    ensures Harmless(r, ReleaseOwnedRecord(r, ownerId))
  {
    if OwnsPoll(r, ownerId) {
      PollReleaseIsHarmless(r);
    } else {
      HarmlessRefl(r);
    }
  }
}
