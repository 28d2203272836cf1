/** Where the contents of the submission journal come from: every step of every process changes
    only the fields its kind owns, so that a receipt, an account or an output found in a reachable
    journal was brought by one particular step of the run, and later reports cannot undo it. */
module SubmissionHistory {
  import opened Prelude
  import opened TaskContract
  import opened JournalRecord
  import opened Journal
  import opened QueueOrder
  import opened RuntimeSteps
  import opened RuntimeEffects
  import opened Reconciler
  import opened ReportEffects
  import opened RecordSteps
  import opened SubmissionProtocol
  import opened HarmlessSteps
  import opened SubmissionSafety

  // ---- What a step may change ------------------------------------------------------------------------

  datatype Kind = Still | Queueing | Permitting | Accepting | Ending | Leasing | Observing | Missing

  function KindOf(a: Action): Kind {
    match a
    case Tick(_) => Still
    case DoSpawn(_) => Still
    case DoCrash(_) => Still
    case DoEnqueue(_, _, _, _, _) => Still
    case DoRunBegin(_, _, _) => Still
    case DoRunAbandon(_) => Still
    case DoRenewQueue(_, _, _, _) => Queueing
    case DoReserve(_, _) => Queueing
    case DoRenewReservation(_, _) => Queueing
    case DoFence(_, _, _, _) => Permitting
    case DoRunFence(_, _, _) => Permitting
    case DoAccept(_, _, _, _) => Accepting
    case DoRunAccept(_, _) => Accepting
    case DoRecover => Ending
    case DoFail(_, _, _) => Ending
    case DoCleanupWarning(_, _) => Ending
    case DoCancel(_) => Ending
    case DoDelete(_) => Ending
    case DoFailTask(_, _) => Ending
    case DoDispose(_) => Ending
    case DoReport(_, _, _, _) => Observing
    case DoSyncError(_, _, _, _) => Missing
    case _ => Leasing
  }

  /** What a step of each kind may change in a record; everything else stays. */
  predicate Owns(kind: Kind, r: Record, q: Record) {
    match kind
    case Still => q == r
    case Queueing =>
      q == r.(state := q.state, queueLease := q.queueLease, queueTicket := q.queueTicket, reservation := q.reservation,
              updatedAt := q.updatedAt, version := q.version)
    case Permitting =>
      q == r.(fence := q.fence, account := q.account, reservation := q.reservation, version := q.version)
    case Accepting =>
      q == r.(state := q.state, submitId := q.submitId, reservation := q.reservation, updatedAt := q.updatedAt,
              version := q.version)
    case Ending =>
      q == r.(state := q.state, errorCode := q.errorCode, reservation := q.reservation, queueLease := q.queueLease,
              queueTicket := q.queueTicket, updatedAt := q.updatedAt, hidden := q.hidden, version := q.version)
    case Leasing =>
      q == r.(pollLease := q.pollLease, nextPollAt := q.nextPollAt, retryCount := q.retryCount, version := q.version)
    case Observing => OnlyObserved(r, q)
    case Missing =>
      q == r.(pollLease := q.pollLease, errorCode := q.errorCode, retryCount := q.retryCount, nextPollAt := q.nextPollAt,
              updatedAt := q.updatedAt, version := q.version)
  }

  /** Records that were there and still are differ by what the kind owns; new ones have nothing
      that a submission brings. */
  ghost predicate Framed(kind: Kind, j: Journal, k: Journal) {
    && (forall i :: i in j.records && i in k.records ==> Owns(kind, j.records[i], k.records[i]))
    && (forall i :: i in k.records && i !in j.records ==> Fresh(k.records[i]))
  }

  predicate Fresh(r: Record) {
    r.submitId.None? && r.outputs.None? && r.account.None? && r.fence.None? && r.lastObservedAt.None?
  }

  lemma StillFrames(kind: Kind, j: Journal)
    ensures Framed(kind, j, j)
  {
  }

  lemma OneRecordFrames(kind: Kind, j: Journal, k: Journal, key: Id)
    requires OthersStay(j, k, key)
    requires key in j.records && key in k.records ==> Owns(kind, j.records[key], k.records[key])
    requires key !in j.records && key in k.records ==> Fresh(k.records[key])
    ensures Framed(kind, j, k)
  {
  }

  /** A rewrite of all records frames when it does so record by record. */
  lemma BatchFrames(kind: Kind, j: Journal, k: Journal)
    requires k.records.Keys == j.records.Keys
    requires forall i :: i in j.records ==> Owns(kind, j.records[i], k.records[i])
    ensures Framed(kind, j, k)
  {
    hide Owns;
  }

  lemma RecoverOwns(j: Journal, now: int, k: Journal)
    requires Recover(j, now) == Ok(k)
    ensures k.records.Keys == j.records.Keys
    ensures forall i :: i in j.records ==> Owns(Ending, j.records[i], k.records[i])
  {
    hide Writable, ValidJournal, RecoverRecord, AnyExpired;
    forall i | i in j.records ensures i in k.records && Owns(Ending, j.records[i], k.records[i]) {
      RecoverySettles(j.records[i], now);
    }
  }

  lemma RecoverFrames(j: Journal, now: int)
    requires Recover(j, now).Ok?
    ensures Framed(Ending, j, Recover(j, now).value)
  {
    hide Recover, Framed, Owns;
    RecoverOwns(j, now, Recover(j, now).value);
    BatchFrames(Ending, j, Recover(j, now).value);
  }

  lemma DisposeFrames(j: Journal, ownerId: Id, now: int)
    requires Dispose(j, ownerId, now).Ok?
    ensures Framed(Ending, j, Dispose(j, ownerId, now).value)
  {
    hide Dispose, Framed, Owns;
    var k := Dispose(j, ownerId, now).value;
    DisposeKeys(j, ownerId, now);
    forall i | i in j.records ensures Owns(Ending, j.records[i], k.records[i]) {
      DisposeOwns(j, ownerId, now, i);
    }
    BatchFrames(Ending, j, k);
  }

  lemma DisposeOwns(j: Journal, ownerId: Id, now: int, i: Id)
    requires Dispose(j, ownerId, now).Ok? && i in j.records && i in Dispose(j, ownerId, now).value.records
    ensures Owns(Ending, j.records[i], Dispose(j, ownerId, now).value.records[i])
  {
    hide Dispose;
    DisposalFailsOwned(j, ownerId, now, i);
  }

  lemma DisposeKeys(j: Journal, ownerId: Id, now: int)
    requires Dispose(j, ownerId, now).Ok?
    ensures Dispose(j, ownerId, now).value.records.Keys == j.records.Keys
  {
    hide Writable, ValidJournal;
  }

  lemma InitializeFrames(j: Journal, delays: Id -> nat, now: int)
    requires Initialize(j, delays, now).Ok?
    ensures Framed(Leasing, j, Initialize(j, delays, now).value)
  {
    hide Initialize, Framed, Owns;
    var k := Initialize(j, delays, now).value;
    InitializeKeys(j, delays, now);
    forall i | i in j.records ensures Owns(Leasing, j.records[i], k.records[i]) {
      InitializeOwns(j, delays, now, i);
    }
    BatchFrames(Leasing, j, k);
  }

  lemma InitializeOwns(j: Journal, delays: Id -> nat, now: int, i: Id)
    requires Initialize(j, delays, now).Ok? && i in j.records && i in Initialize(j, delays, now).value.records
    ensures Owns(Leasing, j.records[i], Initialize(j, delays, now).value.records[i])
  {
    hide Initialize;
    InitializeSchedules(j, delays, now, i);
  }

  lemma InitializeKeys(j: Journal, delays: Id -> nat, now: int)
    requires Initialize(j, delays, now).Ok?
    ensures Initialize(j, delays, now).value.records.Keys == j.records.Keys
  {
    hide Writable, ValidJournal;
  }

  lemma ReleaseOwnedFrames(j: Journal, ownerId: Id)
    requires ReleaseOwned(j, ownerId).Ok?
    ensures Framed(Leasing, j, ReleaseOwned(j, ownerId).value)
  {
    hide ReleaseOwned, Framed, Owns;
    var k := ReleaseOwned(j, ownerId).value;
    ReleaseOwnedKeys(j, ownerId);
    forall i | i in j.records ensures Owns(Leasing, j.records[i], k.records[i]) {
      ReleaseOwnedOwns(j, ownerId, i);
    }
    BatchFrames(Leasing, j, k);
  }

  lemma ReleaseOwnedOwns(j: Journal, ownerId: Id, i: Id)
    requires ReleaseOwned(j, ownerId).Ok? && i in j.records && i in ReleaseOwned(j, ownerId).value.records
    ensures Owns(Leasing, j.records[i], ReleaseOwned(j, ownerId).value.records[i])
  {
    hide ReleaseOwned;
    OwnLeasesAreReleased(j, ownerId, i);
  }

  lemma ReleaseOwnedKeys(j: Journal, ownerId: Id)
    requires ReleaseOwned(j, ownerId).Ok?
    ensures ReleaseOwned(j, ownerId).value.records.Keys == j.records.Keys
  {
    hide Writable, ValidJournal;
  }

  lemma QueueingFrames(w: World, a: Action)
    requires Enabled(w, a) && Effect(w, a).Ok? && KindOf(a) == Queueing
    ensures Framed(Queueing, w.journal, Effect(w, a).value)
  {
    hide RenewQueueLease, ReserveSlot, RenewReservation;
    var j, now := w.journal, w.now;
    match a
    case DoRenewQueue(key, hash, ownerId, leaseMs) =>
      QueueRenewalExtends(j, key, hash, ownerId, now, leaseMs);
      OneRecordFrames(Queueing, j, Effect(w, a).value, key);
    case DoReserve(c, leaseMs) =>
      ReservationIsMade(j, c, now, leaseMs, w.maxActive);
      OneRecordFrames(Queueing, j, Effect(w, a).value, c.key);
    case DoRenewReservation(id, leaseMs) =>
      ReservationRenewalExtends(j, w.attempts[id].claim, now, leaseMs);
      OneRecordFrames(Queueing, j, Effect(w, a).value, w.attempts[id].claim.key);
  }

  lemma PermittingFrames(w: World, a: Action)
    requires Enabled(w, a) && Effect(w, a).Ok? && KindOf(a) == Permitting
    ensures Framed(Permitting, w.journal, Effect(w, a).value)
  {
    hide CommitFence, RunFence;
    var j, c := w.journal, w.attempts[a.id].claim;
    match a
    case DoFence(_, fence, session, leaseMs) =>
      PermissionIsStored(j, c, fence, session, w.now, leaseMs);
      OneRecordFrames(Permitting, j, Effect(w, a).value, c.key);
    case DoRunFence(_, fence, session) =>
      RunPermissionIsStored(j, c.key, fence, session);
      OneRecordFrames(Permitting, j, Effect(w, a).value, c.key);
  }

  lemma AcceptingFrames(w: World, a: Action)
    requires Enabled(w, a) && Effect(w, a).Ok? && KindOf(a) == Accepting
    ensures Framed(Accepting, w.journal, Effect(w, a).value)
    ensures OthersStay(w.journal, Effect(w, a).value, w.attempts[a.id].claim.key)
    ensures
      var key := w.attempts[a.id].claim.key;
      && key in w.journal.records && key in Effect(w, a).value.records
      && Effect(w, a).value.records[key].submitId == Some(a.submitId)
  {
    hide CommitAccepted, RunAccept;
    var j, c := w.journal, w.attempts[a.id].claim;
    match a
    case DoAccept(_, submitId, session, current) =>
      ReceiptIsStored(j, c, w.attempts[a.id].fence, submitId, session, current, w.now);
      OneRecordFrames(Accepting, j, Effect(w, a).value, c.key);
    case DoRunAccept(_, submitId) =>
      RunReceiptIsStored(j, c.key, submitId, w.now);
      OneRecordFrames(Accepting, j, Effect(w, a).value, c.key);
  }

  lemma FailFrames(j: Journal, c: Claim, fence: Option<int>, spawned: bool, code: ErrorCode, now: int)
    requires CommitFailure(j, c, fence, spawned, code, now).Ok?
    ensures Framed(Ending, j, CommitFailure(j, c, fence, spawned, code, now).value)
  {
    hide CommitFailure;
    if spawned {
      UncertaintyIsStored(j, c, fence, code, now);
    } else {
      UnspentKeyIsFree(j, c, fence, code, now);
    }
    OneRecordFrames(Ending, j, CommitFailure(j, c, fence, spawned, code, now).value, c.key);
  }

  lemma EndingFrames(w: World, a: Action)
    requires Enabled(w, a) && Effect(w, a).Ok? && KindOf(a) == Ending
    ensures Framed(Ending, w.journal, Effect(w, a).value)
  {
    hide Recover, CommitFailure, CleanupWarning, CancelTask, DeleteTask, FailTask, Dispose;
    var j, now := w.journal, w.now;
    match a
    case DoRecover => RecoverFrames(j, now);
    case DoFail(id, known, code) => FailFrames(j, w.attempts[id].claim, known, w.attempts[id].spawned, code, now);
    case DoCleanupWarning(key, fence) =>
      WarningIsStored(j, key, fence, now);
      OneRecordFrames(Ending, j, Effect(w, a).value, key);
    case DoCancel(key) =>
      CancellationIsStored(j, key, now);
      OneRecordFrames(Ending, j, Effect(w, a).value, key);
    case DoDelete(key) =>
      DeletionIsStored(j, key, now);
      OneRecordFrames(Ending, j, Effect(w, a).value, key);
    case DoFailTask(key, code) =>
      FailureIsStored(j, key, code, now);
      OneRecordFrames(Ending, j, Effect(w, a).value, key);
    case DoDispose(ownerId) => DisposeFrames(j, ownerId, now);
  }

  lemma LeasingFrames(w: World, a: Action)
    requires Enabled(w, a) && Effect(w, a).Ok? && KindOf(a) == Leasing
    ensures Framed(Leasing, w.journal, Effect(w, a).value)
  {
    var j := w.journal;
    match a
    case DoInitialize(delays) => InitializeFrames(j, delays, w.now);
    case DoSchedule(key, at) => ScheduleFrames(j, key, at);
    case DoRequestNow(key) => RequestFrames(j, key, w.now);
    case DoClaim(key, lease) => ClaimFrames(j, key, lease, w.now);
    case DoRenewPoll(key, lease, at) => RenewPollFrames(j, key, lease, at);
    case DoReleasePoll(key, lease) => ReleaseFrames(j, key, lease);
    case DoReleaseOwned(ownerId) => ReleaseOwnedFrames(j, ownerId);
  }

  lemma ScheduleFrames(j: Journal, key: Id, at: int)
    requires Schedule(j, key, at).Ok?
    ensures Framed(Leasing, j, Schedule(j, key, at).value)
  {
    hide Put;
    if key in j.records {
      ScheduleIsStored(j, key, at);
      OneRecordFrames(Leasing, j, Schedule(j, key, at).value, key);
    }
  }

  lemma RequestFrames(j: Journal, key: Id, now: int)
    requires RequestNow(j, key, now).Ok?
    ensures Framed(Leasing, j, RequestNow(j, key, now).value)
  {
    hide Put;
    if key in j.records {
      RequestedRecordIsDue(j, key, now);
      OneRecordFrames(Leasing, j, RequestNow(j, key, now).value, key);
    }
  }

  lemma ClaimFrames(j: Journal, key: Id, lease: PollLease, now: int)
    requires ClaimKey(j, key, lease, now).Ok?
    ensures Framed(Leasing, j, ClaimKey(j, key, lease, now).value)
  {
    hide Put;
    if key in j.records {
      ClaimIsStored(j, key, lease, now);
      OneRecordFrames(Leasing, j, ClaimKey(j, key, lease, now).value, key);
    }
  }

  lemma RenewPollFrames(j: Journal, key: Id, lease: PollLease, at: int)
    requires RenewPollLease(j, key, lease, at).Ok?
    ensures Framed(Leasing, j, RenewPollLease(j, key, lease, at).value)
  {
    hide Put;
    RenewalIsStored(j, key, lease, at);
    OneRecordFrames(Leasing, j, RenewPollLease(j, key, lease, at).value, key);
  }

  lemma ReleaseFrames(j: Journal, key: Id, lease: PollLease)
    requires ReleasePollLease(j, key, lease).Ok?
    ensures Framed(Leasing, j, ReleasePollLease(j, key, lease).value)
  {
    hide Put;
    if key in j.records {
      ReleaseIsStored(j, key, lease);
      OneRecordFrames(Leasing, j, ReleasePollLease(j, key, lease).value, key);
    }
  }

  lemma ReportFrames(j: Journal, key: Id, lease: PollLease, p: Report, when: Agenda, now: int)
    requires CommitReport(j, key, lease, p, when, now).Ok?
    ensures Framed(Observing, j, CommitReport(j, key, lease, p, when, now).value)
    ensures OthersStay(j, CommitReport(j, key, lease, p, when, now).value, key)
  {
    hide Put;
    if key in j.records && SameLease(j.records[key], lease) {
      if Stale(j.records[key], p) {
        StaleReportGivesBack(j, key, lease, p, when, now);
      } else {
        ReportIsRecorded(j, key, lease, p, when, now);
      }
      OneRecordFrames(Observing, j, CommitReport(j, key, lease, p, when, now).value, key);
    }
  }

  lemma SyncErrorFrames(j: Journal, key: Id, lease: PollLease, code: ErrorCode, when: Agenda, now: int)
    requires CommitSyncError(j, key, lease, code, when, now).Ok?
    ensures Framed(Missing, j, CommitSyncError(j, key, lease, code, when, now).value)
  {
    hide Put;
    if key in j.records {
      SyncErrorIsStored(j, key, lease, code, when, now);
      OneRecordFrames(Missing, j, CommitSyncError(j, key, lease, code, when, now).value, key);
    }
  }

  lemma EnqueueFrames(j: Journal, key: Id, hash: Id, task: TaskInfo, ownerId: Id, now: int, leaseMs: nat)
    requires EnqueueNew(j, key, hash, task, ownerId, now, leaseMs).Ok?
    ensures Framed(Still, j, EnqueueNew(j, key, hash, task, ownerId, now, leaseMs).value)
  {
    hide EnqueueAt, Framed, LoadedTicket;
    EnqueueStoresTheTask(j, key, hash, task, ownerId, now, leaseMs, LoadedTicket(j));
    NewRecordFrames(j, EnqueueNew(j, key, hash, task, ownerId, now, leaseMs).value, key);
  }

  lemma RunBeginFrames(j: Journal, key: Id, hash: Id, now: int, maxActive: nat)
    requires RunBegin(j, key, hash, now, maxActive).Ok?
    ensures Framed(Still, j, RunBegin(j, key, hash, now, maxActive).value)
  {
    hide RunBegin, Framed;
    IntentIsStored(j, key, hash, now, maxActive);
    NewRecordFrames(j, RunBegin(j, key, hash, now, maxActive).value, key);
  }

  lemma RunAbandonFrames(j: Journal, key: Id)
    requires RunAbandon(j, key).Ok?
    ensures Framed(Still, j, RunAbandon(j, key).value)
  {
    hide RunAbandon, Framed;
    AbandonedIntentIsGone(j, key);
    OneRecordFrames(Still, j, RunAbandon(j, key).value, key);
  }

  lemma StillStepFrames(w: World, a: Action)
    requires Enabled(w, a) && Effect(w, a).Ok? && KindOf(a) == Still
    ensures Framed(Still, w.journal, Effect(w, a).value)
  {
    hide EnqueueNew, RunBegin, RunAbandon, Framed;
    var j := w.journal;
    match a
    case DoEnqueue(key, hash, task, ownerId, leaseMs) => EnqueueFrames(j, key, hash, task, ownerId, w.now, leaseMs);
    case DoRunBegin(_, key, hash) => RunBeginFrames(j, key, hash, w.now, w.maxActive);
    case DoRunAbandon(id) => RunAbandonFrames(j, w.attempts[id].claim.key);
    case _ => StillFrames(Still, j);
  }

  lemma NewRecordFrames(j: Journal, k: Journal, key: Id)
    requires OthersStay(j, k, key) && key !in j.records && key in k.records && Fresh(k.records[key])
    ensures Framed(Still, j, k)
  {
  }

  /** Every step changes only what its kind owns, in every record, whatever the interleaving:
      requests and tasks never change, fences and accounts only by a permission, receipts only by an
      acceptance, observations and outputs only by a report. */
  lemma StepFrames(w: World, a: Action)
    ensures Framed(KindOf(a), w.journal, Step(w, a).journal)
  {
    hide Effect, Framed;
    StillFrames(KindOf(a), w.journal);
    if Enabled(w, a) && Effect(w, a).Ok? {
      match KindOf(a)
      case Still => StillStepFrames(w, a);
      case Queueing => QueueingFrames(w, a);
      case Permitting => PermittingFrames(w, a);
      case Accepting => AcceptingFrames(w, a);
      case Ending => EndingFrames(w, a);
      case Leasing => LeasingFrames(w, a);
      case Observing => ReportStepFrames(w, a);
      case Missing => MissStepFrames(w, a);
    }
  }

  lemma ReportStepFrames(w: World, a: Action)
    requires Enabled(w, a) && Effect(w, a).Ok? && KindOf(a) == Observing
    ensures Framed(Observing, w.journal, Effect(w, a).value)
  {
    hide CommitReport, Framed;
    ReportFrames(w.journal, a.key, a.lease, a.report, a.when, w.now);
  }

  lemma MissStepFrames(w: World, a: Action)
    requires Enabled(w, a) && Effect(w, a).Ok? && KindOf(a) == Missing
    ensures Framed(Missing, w.journal, Effect(w, a).value)
  {
    hide CommitSyncError, Framed;
    SyncErrorFrames(w.journal, a.key, a.lease, a.code, a.when, w.now);
  }

  // ---- Where receipts, outputs and accounts come from ---------------------------------------------------

  lemma {:induction false} RunMore(w: World, actions: seq<Action>, a: Action)
    ensures Run(w, actions + [a]) == Step(Run(w, actions), a)
    decreases |actions|
  {
    if actions == [] {
      assert [] + [a] == [a] && [a][1..] == [];
    } else {
      assert (actions + [a])[1..] == actions[1..] + [a];
      RunMore(Step(w, actions[0]), actions[1..], a);
    }
  }

  /** The state of the run before its step `k`. */
  ghost function At(now: int, maxActive: nat, actions: seq<Action>, k: nat): World
    requires k <= |actions|
  {
    Run(Init(now, maxActive), actions[..k])
  }

  lemma LastStep(now: int, maxActive: nat, actions: seq<Action>)
    requires actions != []
    ensures
      var front := actions[..|actions| - 1];
      && Run(Init(now, maxActive), actions) == Step(Run(Init(now, maxActive), front), actions[|actions| - 1])
      && At(now, maxActive, actions, |actions| - 1) == Run(Init(now, maxActive), front)
      && forall k: nat :: k <= |front| ==> At(now, maxActive, front, k) == At(now, maxActive, actions, k)
  {
    var front := actions[..|actions| - 1];
    assert actions == front + [actions[|actions| - 1]];
    RunMore(Init(now, maxActive), front, actions[|actions| - 1]);
    forall k: nat | k <= |front| ensures At(now, maxActive, front, k) == At(now, maxActive, actions, k) {
      assert front[..k] == actions[..k];
    }
  }

  /** The step stores this receipt for an attempt of this key that was permitted and has spawned. */
  ghost predicate Brought(w: World, a: Action, key: Id, submitId: Id) {
    && (a.DoAccept? || a.DoRunAccept?) && Enabled(w, a) && Effect(w, a).Ok?
    && a.submitId == submitId
    && w.attempts[a.id].claim.key == key && w.attempts[a.id].stage == Permitted && w.attempts[a.id].spawned
  }

  /** The step stores these outputs, reported by the holder of the poll lease. */
  ghost predicate Delivered(w: World, a: Action, key: Id, outputs: seq<ProviderOutput>) {
    && a.DoReport? && Enabled(w, a) && Effect(w, a).Ok?
    && a.key == key && key in w.journal.records && SameLease(w.journal.records[key], a.lease)
    && a.report.status == StatusCompleted && a.report.outputs == Some(outputs)
  }

  /** The step permits a spawn for this key under this account. */
  ghost predicate BoundTo(w: World, a: Action, key: Id, account: Account) {
    && (a.DoFence? || a.DoRunFence?) && Enabled(w, a) && Effect(w, a).Ok?
    && a.session == Some(account) && w.attempts[a.id].claim.key == key
  }

  /** Each of these fields is owned by one kind. */
  lemma FrameKeepsFields(kind: Kind, j: Journal, k: Journal, key: Id)
    requires Framed(kind, j, k) && key in k.records
    ensures kind != Accepting && k.records[key].submitId.Some? ==>
      key in j.records && j.records[key].submitId == k.records[key].submitId
    ensures kind != Observing && k.records[key].outputs.Some? ==>
      key in j.records && j.records[key].outputs == k.records[key].outputs
    ensures kind != Permitting && k.records[key].account.Some? ==>
      key in j.records && j.records[key].account == k.records[key].account
  {
    assert key in j.records ==> Owns(kind, j.records[key], k.records[key]);
  }

  lemma ReceiptStep(w: World, a: Action, key: Id)
    requires key in Step(w, a).journal.records && Step(w, a).journal.records[key].submitId.Some?
    ensures
      var receipt := Step(w, a).journal.records[key].submitId;
      || (key in w.journal.records && w.journal.records[key].submitId == receipt)
      || Brought(w, a, key, receipt.value)
  {
    hide Effect, Framed, Owns, Remember, NextLock, Brought, Enabled, KindOf;
    StepFrames(w, a);
    FrameKeepsFields(KindOf(a), w.journal, Step(w, a).journal, key);
    if KindOf(a) == Accepting && Enabled(w, a) && Effect(w, a).Ok? {
      ReceiptEffect(w, a, key);
    }
  }

  lemma ReceiptEffect(w: World, a: Action, key: Id)
    requires KindOf(a) == Accepting && Enabled(w, a) && Effect(w, a).Ok? && key in Effect(w, a).value.records
    requires Effect(w, a).value.records[key].submitId.Some?
    ensures
      var receipt := Effect(w, a).value.records[key].submitId;
      || (key in w.journal.records && w.journal.records[key].submitId == receipt)
      || Brought(w, a, key, receipt.value)
  {
    hide Effect, Framed, Owns, OthersStay;
    AcceptingFrames(w, a);
    if key != w.attempts[a.id].claim.key {
      OtherStays(w.journal, Effect(w, a).value, w.attempts[a.id].claim.key, key);
    }
  }

  lemma OtherStays(j: Journal, k: Journal, key: Id, other: Id)
    requires OthersStay(j, k, key) && other != key && other in k.records
    ensures other in j.records && k.records[other] == j.records[other]
  {
  }

  /** Every receipt in a reachable journal is the one an attempt for that very key brought, after
      it was permitted and had spawned. */
  lemma {:induction false} ReceiptCameFromAttempt(now: int, maxActive: nat, actions: seq<Action>, key: Id)
    requires key in Run(Init(now, maxActive), actions).journal.records
    requires Run(Init(now, maxActive), actions).journal.records[key].submitId.Some?
    ensures exists k :: 0 <= k < |actions| &&
              Brought(At(now, maxActive, actions, k), actions[k], key,
                      Run(Init(now, maxActive), actions).journal.records[key].submitId.value)
    decreases |actions|
  {
    hide Brought, Step;
    if actions != [] {
      var front, a := actions[..|actions| - 1], actions[|actions| - 1];
      LastStep(now, maxActive, actions);
      var w := Run(Init(now, maxActive), front);
      ReceiptStep(w, a, key);
      if key in w.journal.records && w.journal.records[key].submitId == Step(w, a).journal.records[key].submitId {
        ReceiptCameFromAttempt(now, maxActive, front, key);
      }
    }
  }

  lemma OutputsStep(w: World, a: Action, key: Id)
    requires key in Step(w, a).journal.records && Step(w, a).journal.records[key].outputs.Some?
    ensures
      var outputs := Step(w, a).journal.records[key].outputs;
      || (key in w.journal.records && w.journal.records[key].outputs == outputs)
      || Delivered(w, a, key, outputs.value)
  {
    hide Effect, Framed, Owns, Remember, NextLock, Delivered, Enabled, KindOf;
    StepFrames(w, a);
    FrameKeepsFields(KindOf(a), w.journal, Step(w, a).journal, key);
    if KindOf(a) == Observing && Enabled(w, a) && Effect(w, a).Ok? {
      OutputsEffect(w, a, key);
    }
  }

  lemma OutputsEffect(w: World, a: Action, key: Id)
    requires KindOf(a) == Observing && Enabled(w, a) && Effect(w, a).Ok? && key in Effect(w, a).value.records
    requires Effect(w, a).value.records[key].outputs.Some?
    ensures
      var outputs := Effect(w, a).value.records[key].outputs;
      || (key in w.journal.records && w.journal.records[key].outputs == outputs)
      || Delivered(w, a, key, outputs.value)
  {
    hide CommitReport, SameLease;
    CommitBrings(w.journal, a.key, a.lease, a.report, a.when, w.now, key);
  }

  /** Outputs that were not there are those of the report, made by the lease holder. */
  lemma CommitBrings(j: Journal, k: Id, lease: PollLease, p: Report, when: Agenda, now: int, key: Id)
    requires CommitReport(j, k, lease, p, when, now).Ok? && key in CommitReport(j, k, lease, p, when, now).value.records
    requires CommitReport(j, k, lease, p, when, now).value.records[key].outputs.Some?
    ensures
      var outputs := CommitReport(j, k, lease, p, when, now).value.records[key].outputs;
      || (key in j.records && j.records[key].outputs == outputs)
      || (&& key == k && key in j.records && SameLease(j.records[key], lease)
          && p.status == StatusCompleted && p.outputs == outputs)
  {
    hide CommitReport, SameLease, Framed;
    if k in j.records && SameLease(j.records[k], lease) {
      ReportFrames(j, k, lease, p, when, now);
      if key == k {
        if Stale(j.records[k], p) {
          StaleReportGivesBack(j, k, lease, p, when, now);
        } else {
          ReportIsRecorded(j, k, lease, p, when, now);
        }
      }
    } else {
      RefusedCommit(j, k, lease, p, when, now);
    }
  }

  /** Every output in a reachable journal was reported with a completion by a holder of the poll
      lease of that very record. */
  lemma {:induction false} OutputsCameFromReport(now: int, maxActive: nat, actions: seq<Action>, key: Id)
    requires key in Run(Init(now, maxActive), actions).journal.records
    requires Run(Init(now, maxActive), actions).journal.records[key].outputs.Some?
    ensures exists k :: 0 <= k < |actions| &&
              Delivered(At(now, maxActive, actions, k), actions[k], key,
                        Run(Init(now, maxActive), actions).journal.records[key].outputs.value)
    decreases |actions|
  {
    hide Delivered, Step;
    if actions != [] {
      var front, a := actions[..|actions| - 1], actions[|actions| - 1];
      LastStep(now, maxActive, actions);
      var w := Run(Init(now, maxActive), front);
      OutputsStep(w, a, key);
      if key in w.journal.records && w.journal.records[key].outputs == Step(w, a).journal.records[key].outputs {
        OutputsCameFromReport(now, maxActive, front, key);
      }
    }
  }

  lemma AccountStep(w: World, a: Action, key: Id)
    requires key in Step(w, a).journal.records && Step(w, a).journal.records[key].account.Some?
    ensures
      var account := Step(w, a).journal.records[key].account;
      || (key in w.journal.records && w.journal.records[key].account == account)
      || BoundTo(w, a, key, account.value)
  {
    hide Effect, Framed, Owns, Remember, NextLock, BoundTo, Enabled, KindOf;
    StepFrames(w, a);
    FrameKeepsFields(KindOf(a), w.journal, Step(w, a).journal, key);
    if KindOf(a) == Permitting && Enabled(w, a) && Effect(w, a).Ok? {
      AccountEffect(w, a, key);
    }
  }

  lemma AccountEffect(w: World, a: Action, key: Id)
    requires KindOf(a) == Permitting && Enabled(w, a) && Effect(w, a).Ok? && key in Effect(w, a).value.records
    ensures
      var account := Effect(w, a).value.records[key].account;
      || (key in w.journal.records && w.journal.records[key].account == account)
      || (account.Some? && BoundTo(w, a, key, account.value))
  {
    hide CommitFence, RunFence;
    var c := w.attempts[a.id].claim;
    match a
    case DoFence(_, fence, session, leaseMs) => PermissionIsStored(w.journal, c, fence, session, w.now, leaseMs);
    case DoRunFence(_, fence, session) => RunPermissionIsStored(w.journal, c.key, fence, session);
  }

  /** Every account a record is bound to is the session under which an attempt for that very key
      was permitted to spawn. */
  lemma {:induction false} AccountCameFromPermission(now: int, maxActive: nat, actions: seq<Action>, key: Id)
    requires key in Run(Init(now, maxActive), actions).journal.records
    requires Run(Init(now, maxActive), actions).journal.records[key].account.Some?
    ensures exists k :: 0 <= k < |actions| &&
              BoundTo(At(now, maxActive, actions, k), actions[k], key,
                      Run(Init(now, maxActive), actions).journal.records[key].account.value)
    decreases |actions|
  {
    hide BoundTo, Step;
    if actions != [] {
      var front, a := actions[..|actions| - 1], actions[|actions| - 1];
      LastStep(now, maxActive, actions);
      var w := Run(Init(now, maxActive), front);
      AccountStep(w, a, key);
      if key in w.journal.records && w.journal.records[key].account == Step(w, a).journal.records[key].account {
        AccountCameFromPermission(now, maxActive, front, key);
      }
    }
  }

  // ---- Nothing paid for is lost -------------------------------------------------------------------------------

  lemma HarmlessKeepsSettled(r: Record, q: Record)
    requires Harmless(r, q) && Settled(r)
    ensures Settled(q)
  {
  }

  lemma PointwiseKeepsSettled(j: Journal, k: Journal, key: Id)
    requires Pointwise(j, k) && key in j.records && Settled(j.records[key])
    ensures key in k.records && Settled(k.records[key])
  {
    hide Harmless, Settled, ValidJournal;
    HarmlessKeepsSettled(j.records[key], k.records[key]);
  }

  lemma SettledStep(w: World, a: Action, key: Id)
    requires Inv(w) && key in w.journal.records && Settled(w.journal.records[key])
    ensures key in Step(w, a).journal.records && Settled(Step(w, a).journal.records[key])
  {
    hide Effect, JournalInv, TicketInv, AttemptInv, LockInv, Unique, Settled, Pointwise;
    if Enabled(w, a) && Effect(w, a).Ok? {
      if HarmlessStep(a) {
        HarmlessStepIsPointwise(w, a);
        PointwiseKeepsSettled(w.journal, Effect(w, a).value, key);
      } else {
        OtherStepKeepsSettled(w, a, key);
      }
    }
  }

  /** A settled record is never removed. */
  lemma {:induction false} SettledStays(w: World, actions: seq<Action>, key: Id)
    requires Inv(w) && key in w.journal.records && Settled(w.journal.records[key])
    ensures PresentThroughout(w, actions, key)
    ensures key in Run(w, actions).journal.records && Settled(Run(w, actions).journal.records[key])
    decreases |actions|
  {
    hide Inv, Step, Settled;
    if actions != [] {
      StepKeepsInv(w, actions[0]);
      SettledStep(w, actions[0], key);
      SettledStays(Step(w, actions[0]), actions[1..], key);
    }
  }

  lemma BroughtIsStored(w: World, a: Action, key: Id, submitId: Id)
    requires Brought(w, a, key, submitId)
    ensures
      && key in Step(w, a).journal.records
      && Step(w, a).journal.records[key].submitId == Some(submitId)
      && Step(w, a).journal.records[key].state == Accepted
  {
    hide Effect;
    AcceptingFrames(w, a);
    AcceptedState(w, a);
  }

  lemma AcceptedState(w: World, a: Action)
    requires KindOf(a) == Accepting && Enabled(w, a) && Effect(w, a).Ok?
    ensures
      var key := w.attempts[a.id].claim.key;
      key in Effect(w, a).value.records && Effect(w, a).value.records[key].state == Accepted
  {
    hide CommitAccepted, RunAccept;
    var c := w.attempts[a.id].claim;
    match a
    case DoAccept(_, submitId, session, current) =>
      ReceiptIsStored(w.journal, c, w.attempts[a.id].fence, submitId, session, current, w.now);
    case DoRunAccept(_, submitId) => RunReceiptIsStored(w.journal, c.key, submitId, w.now);
  }

  /** Once an attempt has stored its receipt, the record is there for ever, with that receipt: no
      interleaving of later steps loses or replaces paid work. */
  lemma {:induction false} ReceiptsAreKept(
    now: int, maxActive: nat, before: seq<Action>, a: Action, after: seq<Action>, key: Id, submitId: Id)
    requires Brought(Run(Init(now, maxActive), before), a, key, submitId)
    ensures
      var v := Run(Step(Run(Init(now, maxActive), before), a), after);
      key in v.journal.records && v.journal.records[key].submitId == Some(submitId)
  {
    hide Inv, Run, Brought, Step;
    var w := Run(Init(now, maxActive), before);
    InitInv(now, maxActive);
    RunKeepsInv(Init(now, maxActive), before);
    StepKeepsInv(w, a);
    BroughtIsStored(w, a, key, submitId);
    SettledStays(Step(w, a), after, key);
    HistorySucceeds(Step(w, a), after, key);
  }

  // ---- Ordered observations -------------------------------------------------------------------------------------

  /** The step commits a report about this key that is not older than the last one. */
  ghost predicate Reported(w: World, a: Action, key: Id) {
    && a.DoReport? && Enabled(w, a) && Effect(w, a).Ok? && a.key == key
    && key in w.journal.records && SameLease(w.journal.records[key], a.lease) && !Stale(w.journal.records[key], a.report)
  }

  lemma ReportedIsLast(w: World, a: Action, key: Id)
    requires Reported(w, a, key)
    ensures key in Step(w, a).journal.records
    ensures Step(w, a).journal.records[key].lastObservedAt == Some(a.report.observedAt)
  {
    hide CommitReport;
    ReportIsRecorded(w.journal, key, a.lease, a.report, a.when, w.now);
  }

  /** What a poller observes of a record. */
  predicate SameObservation(r: Record, q: Record) {
    && q.state == r.state && q.errorCode == r.errorCode && q.officialStatus == r.officialStatus
    && q.outputs == r.outputs && q.lastObservedAt == r.lastObservedAt
  }

  lemma StaleStep(w: World, a: Action, key: Id)
    requires a.DoReport? && a.key == key && key in w.journal.records && Stale(w.journal.records[key], a.report)
    ensures key in Step(w, a).journal.records
    ensures SameObservation(w.journal.records[key], Step(w, a).journal.records[key])
  {
    hide CommitReport;
    if Enabled(w, a) && Effect(w, a).Ok? {
      if SameLease(w.journal.records[key], a.lease) {
        StaleReportGivesBack(w.journal, key, a.lease, a.report, a.when, w.now);
      } else {
        RefusedCommit(w.journal, key, a.lease, a.report, a.when, w.now);
      }
    }
  }

  /** Observations are ordered over whole runs: however many steps lie between, a report observed
      before one that was already committed changes neither the state, the code, the official status
      nor the outputs, and the later observation stays the last one. */
  lemma {:induction false} OlderReportChangesNothing(
    now: int, maxActive: nat, before: seq<Action>, a: Action, between: seq<Action>, late: Action, key: Id)
    requires Reported(Run(Init(now, maxActive), before), a, key)
    requires late.DoReport? && late.key == key && late.report.observedAt < a.report.observedAt
    ensures
      var v := Run(Step(Run(Init(now, maxActive), before), a), between);
      && key in v.journal.records && key in Step(v, late).journal.records
      && SameObservation(v.journal.records[key], Step(v, late).journal.records[key])
  {
    hide Inv, Run, Step, Reported;
    var w := Run(Init(now, maxActive), before);
    InitInv(now, maxActive);
    RunKeepsInv(Init(now, maxActive), before);
    StepKeepsInv(w, a);
    ReportedIsLast(w, a, key);
    ObservedIsSettled(Step(w, a), key);
    SettledStays(Step(w, a), between, key);
    HistoryObservesOn(Step(w, a), between, key);
    StaleStep(Run(Step(w, a), between), late, key);
  }

  lemma ObservedIsSettled(w: World, key: Id)
    requires Inv(w) && key in w.journal.records && w.journal.records[key].lastObservedAt.Some?
    ensures Settled(w.journal.records[key])
  {
    assert Tame(w.journal.records[key]);
  }
}
