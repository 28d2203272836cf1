/** One record of the submission journal, its shape check, and the progression gate that
    judges every rewrite of it. */
module JournalRecord {
  import opened Prelude
  import opened TaskContract

  datatype JournalState = Queued | Pending | Accepted | Succeeded | Failed | Cancelled | Unknown | Deleted

  datatype Phase = Reserved | SpawnPermitted

  /** Records of the previous format carry a reservation without owner and phase. */
  datatype Reservation =
    | NoReservation
    | LegacyReservation(id: Id, expiresAt: int)
    | Reservation(id: Id, ownerId: Id, expiresAt: int, phase: Phase)

  datatype QueueLease = QueueLease(ownerId: Id, expiresAt: int)

  datatype Account = Account(binding: Id, epoch: int)

  datatype PollLease = PollLease(leaseId: Id, ownerId: Id, expiresAt: int)

  datatype ProviderOutput = ProviderOutput(index: int, media: Media, ref: Id)

  /** What a task-version-1 record fixes for ever; records of the older `run` interface have none. */
  datatype TaskInfo = TaskInfo(
    clientOperationId: Option<Id>, context: Option<Context>, operation: Id, mode: Media, model: Id, createdAt: int)

  datatype Record = Record(
    requestHash: Id,
    task: Option<TaskInfo>,
    state: JournalState,
    version: int,
    fence: Option<int>,
    account: Option<Account>,
    reservation: Reservation,
    queueLease: Option<QueueLease>,
    queueTicket: Option<int>,
    submitId: Option<Id>,
    updatedAt: int,
    errorCode: Option<ErrorCode>,
    officialStatus: Option<Status>,
    nextPollAt: Option<int>,
    pollLease: Option<PollLease>,
    retryCount: Option<int>,
    lastObservedAt: Option<int>,
    outputs: Option<seq<ProviderOutput>>,
    hidden: bool)


  const MAX_RETRIES := 1000000

  function StateRank(s: JournalState): nat {
    match s
    case Queued => 0
    case Pending => 1
    case Accepted => 2
    case _ => 3
  }

  predicate IsTerminal(s: JournalState) {
    s == Succeeded || s == Failed || s == Cancelled || s == Unknown || s == Deleted
  }

  predicate DistinctIndexes(outputs: seq<ProviderOutput>) {
    outputs == [] ||
    var front, last := outputs[..|outputs| - 1], outputs[|outputs| - 1];
    DistinctIndexes(front) && forall o :: o in front ==> o.index != last.index
  }

  /** One to four outputs with distinct indexes 0 to 3, all of the record's medium; a video has one. */
  predicate ValidOutputs(outputs: seq<ProviderOutput>, mode: Media) {
    && 1 <= |outputs| <= 4
    && mode != Audio
    && (forall o :: o in outputs ==> 0 <= o.index <= 3 && o.media == mode)
    && DistinctIndexes(outputs)
    && (mode == Image || |outputs| == 1)
  }

  predicate ValidReservation(r: Record) {
    || r.reservation.NoReservation?
    || (r.state == Pending
        && (r.reservation.LegacyReservation? || r.reservation.phase == Reserved || r.fence.Some?))
  }

  /** The shape check applied to everything read from or written to disk. */
  predicate ValidRecord(r: Record) {
    && 1 <= r.version <= MAX_SAFE_INTEGER
    && (r.fence.Some? ==> 1 <= r.fence.value <= MAX_SAFE_INTEGER)
    && (r.account.Some? ==> 0 <= r.account.value.epoch <= MAX_SAFE_INTEGER)
    && ValidReservation(r)
    && (r.queueLease.Some? ==> r.state == Queued)
    && (r.queueTicket.Some? ==> 1 <= r.queueTicket.value <= MAX_SAFE_INTEGER)
    && (r.retryCount.Some? ==> 0 <= r.retryCount.value <= MAX_RETRIES)
    && (r.state == Queued || r.state == Pending ==> r.submitId.None?)
    && (r.state == Accepted ==> r.submitId.Some?)
    && (r.task.None? ==>
          && (r.state == Pending || r.state == Accepted || r.state == Unknown)
          && r.nextPollAt.None? && r.pollLease.None? && r.retryCount.None? && r.lastObservedAt.None? && r.outputs.None?
          && (r.errorCode.None? || (r.state == Accepted && r.errorCode == Some(CleanupFailed))))
    && (r.task.Some? ==>
          && r.task.value.mode != Audio
          && (r.state == Succeeded ==> r.submitId.Some?)
          && (r.outputs.Some? ==>
                && ValidOutputs(r.outputs.value, r.task.value.mode)
                && r.state == Succeeded
                && r.officialStatus == Some(StatusCompleted)))
  }

  /** An observation trustworthy enough to resolve an uncertain submission. */
  predicate Reliable(r: Record) {
    r.lastObservedAt.Some? &&
    match r.state
    case Accepted => r.officialStatus == Some(StatusPending) || r.officialStatus == Some(StatusProcessing)
    case Succeeded => r.officialStatus == Some(StatusCompleted)
    case Failed => r.officialStatus == Some(StatusFailed)
    case Cancelled => r.officialStatus == Some(StatusCancelled)
    case _ => false
  }

  predicate Reconciled(p: Record, q: Record) {
    p.state == Unknown && p.submitId.Some? && q.submitId == p.submitId && Reliable(q)
  }

  function FenceOrZero(r: Record): int {
    if r.fence.Some? then r.fence.value else 0
  }

  predicate QueueProgresses(p: Record, q: Record) {
    p.state == Queued && q.state == Queued && p.queueLease.Some? ==>
      && q.queueLease.Some?
      && q.queueLease.value.ownerId == p.queueLease.value.ownerId
      && q.queueTicket == p.queueTicket
      && q.queueLease.value.expiresAt >= p.queueLease.value.expiresAt
  }

  predicate ReservationProgresses(p: Record, q: Record) {
    p.state == Pending && q.state == Pending && !p.reservation.NoReservation? ==>
      match p.reservation
      case LegacyReservation(id, expiresAt) =>
        q.reservation.LegacyReservation? && q.reservation.id == id && q.reservation.expiresAt >= expiresAt
      case Reservation(id, ownerId, expiresAt, phase) =>
        && q.reservation.Reservation?
        && q.reservation.id == id
        && q.reservation.ownerId == ownerId
        && q.reservation.expiresAt >= expiresAt
        && (phase == SpawnPermitted ==> q.reservation.phase == SpawnPermitted)
  }

  /** The gate: may `q` replace `p`? */
  predicate Progresses(p: Record, q: Record) {
    && q.requestHash == p.requestHash
    && q.task == p.task
    && (Reconciled(p, q) || StateRank(q.state) >= StateRank(p.state))
    && (Reconciled(p, q) || !IsTerminal(p.state) || q.state == p.state || q.state == Deleted)
    && (p.submitId.Some? ==> q.submitId == p.submitId)
    && (p.hidden ==> q.hidden)
    && (p.outputs.Some? ==> q.outputs == p.outputs)
    && (p.fence.Some? ==> FenceOrZero(q) >= p.fence.value)
    && (p.account.Some? ==>
          q.account.Some? && q.account.value.binding == p.account.value.binding
          && q.account.value.epoch >= p.account.value.epoch)
    && QueueProgresses(p, q)
    && ReservationProgresses(p, q)
  }

  /** Equal up to the journal version. */
  predicate SameRecord(p: Record, q: Record) {
    p.(version := q.version) == q
  }

  /** A submission whose outcome is uncertain although its receipt is known. No step creates
      one; only journals of older releases may hold one. */
  predicate UncertainWithReceipt(r: Record) {
    r.state == Unknown && r.submitId.Some?
  }

  lemma ProgressIsReflexive(r: Record)
    ensures Progresses(r, r)
  {
  }

  /** The step `a` to `b` settles what became of an uncertain submission, or gives it a receipt. */
  predicate Resolves(a: Record, b: Record) {
    && a.state == Unknown
    && (if b.state == Unknown then a.submitId.None? && b.submitId.Some? else b.state != Deleted)
  }

  /** Progression composes, so any earlier and any later image of a record are related. */
  lemma ProgressIsTransitive(a: Record, b: Record, c: Record)
    requires ValidRecord(a) && Progresses(a, b) && Progresses(b, c) && !Resolves(a, b)
    ensures Progresses(a, c)
  {
    if a.state == Pending && c.state == Pending {
      assert b.state == Pending;
    }
    if a.state == Queued && c.state == Queued {
      assert b.state == Queued;
    }
  }

  /** The condition is exact: a step composes with every legal step after it if and only if it does
      not resolve an uncertain submission. */
  lemma ProgressComposesExactly(a: Record, b: Record)
    requires ValidRecord(a) && Progresses(a, b)
    ensures (forall c :: Progresses(b, c) ==> Progresses(a, c)) <==> !Resolves(a, b)
  {
    if Resolves(a, b) {
      var c := if b.state == Unknown
               then b.(state := Accepted, lastObservedAt := Some(1), officialStatus := Some(StatusPending))
               else b.(lastObservedAt := None);
      assert Progresses(b, c) && !Progresses(a, c);
    } else {
      forall c | Progresses(b, c) ensures Progresses(a, c) {
        ProgressIsTransitive(a, b, c);
      }
    }
  }

  /** For valid records, too: from an uncertain record with a receipt two legal steps lead to a
      record that the gate refuses directly, exactly when the record belongs to a task. */
  lemma UncertainReceiptsComposeExactly(a: Record)
    requires ValidRecord(a) && UncertainWithReceipt(a)
    ensures
      (exists b, c :: ValidRecord(b) && ValidRecord(c) && Progresses(a, b) && Progresses(b, c) && !Progresses(a, c))
        <==> a.task.Some?
  {
    if a.task.Some? {
      var b := a.(state := Accepted, lastObservedAt := Some(1), officialStatus := Some(StatusPending));
      var c := b.(state := Failed);
      assert ValidRecord(b) && ValidRecord(c) && Progresses(a, b) && Progresses(b, c) && !Progresses(a, c);
    } else {
      forall b, c | ValidRecord(b) && Progresses(a, b) && Progresses(b, c) ensures Progresses(a, c) {
        ProgressIsTransitive(a, b, c);
      }
    }
  }

  /** Exactly what the gate lets a settled record become: itself with the same state, or a
      deleted one. Nothing else, unless it was an uncertain submission with a receipt. */
  lemma SettledStateIsFinal(p: Record, q: Record)
    requires Progresses(p, q) && IsTerminal(p.state) && !UncertainWithReceipt(p)
    ensures q.state == p.state || q.state == Deleted
    ensures q.state != Queued && q.state != Pending && q.state != Accepted
  {
  }
}
