/** What the steps of the reconciler leave in the journal, field by field: whose lease is stored,
    what a report changes, and when the next poll is due. */
module ReportEffects {
  import opened Prelude
  import opened TaskContract
  import opened JournalRecord
  import opened Journal
  import opened RuntimeEffects
  import opened Reconciler

  lemma PutShape(j: Journal, key: Id, r: Record)
    requires key in j.records && Put(j, key, r).Ok?
    ensures
      var k := Put(j, key, r).value;
      && key in k.records && k.records[key] == r.(version := NextVersion(j, key, r))
      && OthersStay(j, k, key) && k.nextTicket == j.nextTicket
  {
    hide Persist;
    assert j.(records := j.records[key := r]) == Journal(j.records[key := r], j.nextTicket);
    PersistOneInverse(j, key, r, j.nextTicket);
  }

  // ---- Leases ----------------------------------------------------------------------------------------

  /** The caller's lease is stored exactly on a due record: eligible, its poll time come, and not
      polled by anybody whose lease still runs. */
  lemma ClaimIsStored(j: Journal, key: Id, lease: PollLease, now: int)
    requires ClaimKey(j, key, lease, now).Ok? && key in j.records
    ensures
      var k := ClaimKey(j, key, lease, now).value;
      && key in k.records && OthersStay(j, k, key)
      && var r, q := j.records[key], k.records[key];
      if Eligible(r) && r.nextPollAt.Some? && r.nextPollAt.value <= now
         && (r.pollLease.Some? ==> r.pollLease.value.expiresAt <= now) then
        q == r.(pollLease := Some(lease), version := q.version) && SameLease(q, lease)
      else k == j
  {
    hide Put;
    if Due(j.records[key], now) {
      PutShape(j, key, j.records[key].(pollLease := Some(lease)));
    }
  }

  lemma RenewalIsStored(j: Journal, key: Id, lease: PollLease, expiresAt: int)
    requires RenewPollLease(j, key, lease, expiresAt).Ok?
    ensures
      var k := RenewPollLease(j, key, lease, expiresAt).value;
      && key in j.records && key in k.records && OthersStay(j, k, key) && SameLease(j.records[key], lease)
      && var q := k.records[key];
      && q == j.records[key].(pollLease := Some(PollLease(lease.leaseId, lease.ownerId, expiresAt)), version := q.version)
  {
    hide Put;
    PutShape(j, key, j.records[key].(pollLease := Some(lease.(expiresAt := expiresAt))));
  }

  /** Only the holder gives a lease back, and nothing else changes. */
  lemma ReleaseIsStored(j: Journal, key: Id, lease: PollLease)
    requires ReleasePollLease(j, key, lease).Ok? && key in j.records
    ensures
      var k := ReleasePollLease(j, key, lease).value;
      && key in k.records && OthersStay(j, k, key)
      && var q := k.records[key];
      if SameLease(j.records[key], lease) then q == j.records[key].(pollLease := None, version := q.version) else k == j
  {
    hide Put;
    if SameLease(j.records[key], lease) {
      PutShape(j, key, j.records[key].(pollLease := None));
    }
  }

  /** An instance that stops gives back its own leases and nobody else's. */
  lemma OwnLeasesAreReleased(j: Journal, ownerId: Id, key: Id)
    requires ReleaseOwned(j, ownerId).Ok? && key in j.records
    ensures
      var k := ReleaseOwned(j, ownerId).value;
      && key in k.records
      && var r, q := j.records[key], k.records[key];
      if r.pollLease.Some? && r.pollLease.value.ownerId == ownerId then q == r.(pollLease := None, version := q.version)
      else q == r
  {
    hide Writable, ValidJournal;
    assert SameRecord(j.records[key], j.records[key]);
    assert OwnsPoll(j.records[key], ownerId) ==> AnyOwned(j.records, ownerId);
  }

  /** Whoever does not hold the very lease, under that id and for that owner, changes nothing. */
  lemma ForeignLeaseChangesNothing(
    j: Journal, key: Id, lease: PollLease, p: Report, code: ErrorCode, when: Agenda, now: int, expiresAt: int)
    requires key in j.records && j.records[key].pollLease.Some? ==>
      var held := j.records[key].pollLease.value;
      held.leaseId != lease.leaseId || held.ownerId != lease.ownerId
    ensures CommitReport(j, key, lease, p, when, now) == Ok(j)
    ensures CommitSyncError(j, key, lease, code, when, now) == Ok(j)
    ensures ReleasePollLease(j, key, lease) == Ok(j)
    ensures RenewPollLease(j, key, lease, expiresAt) == Err(CliFenced)
  {
  }

  // ---- Scheduling ----------------------------------------------------------------------------------------

  /** Polling starts at `at`, unless an earlier poll is due or the record is not to be polled. */
  lemma ScheduleIsStored(j: Journal, key: Id, at: int)
    requires Schedule(j, key, at).Ok? && key in j.records
    ensures
      var k := Schedule(j, key, at).value;
      && key in k.records && OthersStay(j, k, key)
      && var r, q := j.records[key], k.records[key];
      && (Eligible(r) ==> q.nextPollAt.Some? && q.nextPollAt.value <= at)
      && (if Eligible(r) && (r.nextPollAt.None? || r.nextPollAt.value > at)
          then q == r.(nextPollAt := Some(at), retryCount := Some(CountOrZero(r)), version := q.version) else k == j)
  {
    hide Put;
    if Eligible(j.records[key]) && !(j.records[key].nextPollAt.Some? && j.records[key].nextPollAt.value <= at) {
      PutShape(j, key, Started(j.records[key], at));
    }
  }

  /** A record asked for is due at once, so that the next claim gets it, unless somebody polls it. */
  lemma RequestedRecordIsDue(j: Journal, key: Id, now: int)
    requires RequestNow(j, key, now).Ok? && key in j.records
    ensures
      var k := RequestNow(j, key, now).value;
      && key in k.records && OthersStay(j, k, key)
      && var r, q := j.records[key], k.records[key];
      && q == r.(nextPollAt := q.nextPollAt, retryCount := q.retryCount, version := q.version)
      && CountOrZero(q) == CountOrZero(r)
      && (Eligible(r) ==> q.nextPollAt == Some(now - 1))
      && (Eligible(r) && r.pollLease.None? ==> Due(q, now))
      && (!Eligible(r) ==> k == j)
  {
    hide Put;
    if Eligible(j.records[key]) && j.records[key].nextPollAt != Some(now - 1) {
      PutShape(j, key, Started(j.records[key], now - 1));
    }
  }

  /** After a start every record to be polled has a poll time; those that had one keep it. */
  lemma InitializeSchedules(j: Journal, delays: Id -> nat, now: int, key: Id)
    requires Initialize(j, delays, now).Ok? && key in j.records
    ensures
      var k := Initialize(j, delays, now).value;
      && key in k.records
      && var r, q := j.records[key], k.records[key];
      if Eligible(r) && r.nextPollAt.None? then
        q == r.(nextPollAt := Some(now + delays(key)), retryCount := Some(CountOrZero(r)), version := q.version)
      else q == r
  {
    hide Writable, ValidJournal;
    assert SameRecord(j.records[key], j.records[key]);
  }

  // ---- Reports -----------------------------------------------------------------------------------------------

  /** What a commit by the lease holder changes at most. */
  predicate OnlyObserved(r: Record, q: Record) {
    q == r.(state := q.state, errorCode := q.errorCode, officialStatus := q.officialStatus, outputs := q.outputs,
            lastObservedAt := q.lastObservedAt, updatedAt := q.updatedAt, pollLease := q.pollLease,
            retryCount := q.retryCount, nextPollAt := q.nextPollAt, version := q.version)
  }

  /** A report becomes the last observation: its time, its status and its outputs are the ones
      stored, and the lease is given back. */
  lemma ReportIsRecorded(j: Journal, key: Id, lease: PollLease, p: Report, when: Agenda, now: int)
    requires CommitReport(j, key, lease, p, when, now).Ok?
    requires key in j.records && SameLease(j.records[key], lease) && !Stale(j.records[key], p)
    ensures
      var k := CommitReport(j, key, lease, p, when, now).value;
      && key in k.records && OthersStay(j, k, key)
      && var r, q := j.records[key], k.records[key];
      && OnlyObserved(r, q)
      && q.lastObservedAt == Some(p.observedAt) && q.updatedAt == now && q.pollLease.None?
      && (p.status == StatusCompleted && p.outputs.Some? ==> q.outputs == p.outputs)
      && (p.status != StatusCompleted || p.outputs.None? ==> q.outputs == r.outputs)
  {
    hide Put;
    PutShape(j, key, ObservedRecord(j.records[key], p, when, now));
  }

  /** The state that follows from each status; a success stays one, and a contradiction is noted
      while the official status stays completed. */
  lemma ReportDecidesState(j: Journal, key: Id, lease: PollLease, p: Report, when: Agenda, now: int)
    requires CommitReport(j, key, lease, p, when, now).Ok?
    requires key in j.records && SameLease(j.records[key], lease) && !Stale(j.records[key], p)
    ensures
      var k := CommitReport(j, key, lease, p, when, now).value;
      && key in k.records
      && var r, q := j.records[key], k.records[key];
      if r.state == Succeeded && p.status != StatusCompleted then
        q.state == Succeeded && q.officialStatus == r.officialStatus && q.errorCode == Some(ObservationConflict)
      else
        && q.officialStatus == Some(p.status)
        && (p.status == StatusPending || p.status == StatusProcessing ==> q.state == Accepted)
        && (p.status == StatusCompleted ==> q.state == Succeeded)
        && (p.status == StatusCancelled ==> q.state == Cancelled && q.errorCode == Some(OfficialCancelled))
        && (p.status == StatusFailed ==> q.state == Failed && q.errorCode == Some(OfficialFailed))
        && (p.status != StatusCancelled && p.status != StatusFailed ==>
              q.errorCode ==
                if p.status == StatusCompleted && p.retryCode.Some? then p.retryCode
                else if r.errorCode == Some(CleanupFailed) then r.errorCode else None)
  {
    hide Put;
    PutShape(j, key, ObservedRecord(j.records[key], p, when, now));
  }

  /** When the next poll is due: after the interval while the work goes on, after the back-off when
      its outputs could not be had, and never otherwise. Only such a miss counts as a retry. */
  lemma ReportSchedules(j: Journal, key: Id, lease: PollLease, p: Report, when: Agenda, now: int)
    requires CommitReport(j, key, lease, p, when, now).Ok?
    requires key in j.records && SameLease(j.records[key], lease) && !Stale(j.records[key], p)
    ensures
      var k := CommitReport(j, key, lease, p, when, now).value;
      && key in k.records
      && var r, q := j.records[key], k.records[key];
      if p.status == StatusPending || p.status == StatusProcessing then
        q.nextPollAt == Some(when.pollAt) && q.retryCount == Some(0)
      else if p.status == StatusCompleted && p.retryCode.Some? then
        q.nextPollAt == Some(when.retryAt) && q.retryCount == Some(Min(CountOrZero(r) + 1, MAX_RETRIES))
      else
        q.nextPollAt.None? && q.retryCount == Some(0)
  {
    hide Put;
    PutShape(j, key, ObservedRecord(j.records[key], p, when, now));
  }

  /** A report older than the last observation gives the lease back and changes nothing but the
      time of the next poll. */
  lemma StaleReportGivesBack(j: Journal, key: Id, lease: PollLease, p: Report, when: Agenda, now: int)
    requires CommitReport(j, key, lease, p, when, now).Ok?
    requires key in j.records && SameLease(j.records[key], lease) && Stale(j.records[key], p)
    ensures
      var k := CommitReport(j, key, lease, p, when, now).value;
      && key in k.records && OthersStay(j, k, key)
      && var r, q := j.records[key], k.records[key];
      && q == r.(pollLease := None, nextPollAt := q.nextPollAt, version := q.version)
      && q.nextPollAt == (if Eligible(r) then Some(when.pollAt) else r.nextPollAt)
  {
    hide Put;
    PutShape(j, key, ObservedRecord(j.records[key], p, when, now));
  }

  /** A failed poll is noted with its reason, counted and tried again after the back-off; what was
      observed stays. */
  lemma SyncErrorIsStored(j: Journal, key: Id, lease: PollLease, code: ErrorCode, when: Agenda, now: int)
    requires CommitSyncError(j, key, lease, code, when, now).Ok? && key in j.records
    ensures
      var k := CommitSyncError(j, key, lease, code, when, now).value;
      && key in k.records && OthersStay(j, k, key)
      && var r, q := j.records[key], k.records[key];
      if SameLease(r, lease) then
        q == r.(pollLease := None, errorCode := Some(code), retryCount := Some(Min(CountOrZero(r) + 1, MAX_RETRIES)),
                nextPollAt := Some(when.retryAt), updatedAt := now, version := q.version)
      else k == j
  {
    hide Put;
    if SameLease(j.records[key], lease) {
      PutShape(j, key, SyncFailedRecord(j.records[key], code, when, now));
    }
  }

  /** A miss is retried after the delay of the very count that is stored with it, and regular polls
      are one interval apart, spread by the jitter. */
  lemma NextPollFollowsCount(j: Journal, key: Id, lease: PollLease, p: Report, t: Timing, now: int)
    requires key in j.records && SameLease(j.records[key], lease) && !Stale(j.records[key], p) && ValidRecord(j.records[key])
    requires CommitReport(j, key, lease, p, AgendaFor(t, j.records[key], now), now).Ok?
    ensures
      var k := CommitReport(j, key, lease, p, AgendaFor(t, j.records[key], now), now).value;
      && key in k.records
      && var q := k.records[key];
      && q.retryCount.Some?
      && (q.nextPollAt.Some? ==>
            q.nextPollAt.value ==
              if q.retryCount.value > 0 then now + RetryDelay(t, q.retryCount.value) else now + t.interval + t.jitter)
  {
    hide CommitReport, RetryDelay;
    ReportSchedules(j, key, lease, p, AgendaFor(t, j.records[key], now), now);
  }

  /** The first retry waits for the base, every further one twice as long as the one before, up to
      the cap and for at most twenty doublings. */
  lemma RetryDelayDoubles(t: Timing, n: int)
    ensures n <= 1 ==> RetryDelay(t, n) == Min(t.retryMax, t.retryBase)
    ensures 1 <= n <= 20 ==> RetryDelay(t, n + 1) == Min(t.retryMax, 2 * RetryDelay(t, n))
    ensures n >= 21 ==> RetryDelay(t, n) == RetryDelay(t, 21)
  {
    if 1 <= n <= 20 {
      assert Power2(n) == 2 * Power2(n - 1);
      assert t.retryBase * (2 * Power2(n - 1)) == 2 * (t.retryBase * Power2(n - 1));
    }
  }

  /** A poll from beginning to end: whoever has claimed a record commits a fitting report. */
  lemma ClaimantMayCommit(
    j: Journal, key: Id, lease: PollLease, now: int, p: Report, when: Agenda, later: int)
    requires ValidJournal(j) && key in j.records && j.records[key].version + 1 < MAX_SAFE_INTEGER
    requires Due(j.records[key], now) && Fits(j.records[key], p) && !Stale(j.records[key], p)
    ensures ClaimKey(j, key, lease, now).Ok?
    ensures
      var k := ClaimKey(j, key, lease, now).value;
      && CommitReport(k, key, lease, p, when, later).Ok?
      && key in CommitReport(k, key, lease, p, when, later).value.records
      && CommitReport(k, key, lease, p, when, later).value.records[key].lastObservedAt == Some(p.observedAt)
  {
    hide ClaimKey, CommitReport;
    PollLeaseStepsAreAccepted(j, key, lease, now, now);
    ClaimIsStored(j, key, lease, now);
    ClaimIsValid(j, key, lease, now);
    var k := ClaimKey(j, key, lease, now).value;
    ReportIsAccepted(k, key, lease, p, when, later);
    ReportIsRecorded(k, key, lease, p, when, later);
  }

  lemma ClaimIsValid(j: Journal, key: Id, lease: PollLease, now: int)
    requires ValidJournal(j) && ClaimKey(j, key, lease, now).Ok? && key in j.records
    ensures
      var k := ClaimKey(j, key, lease, now).value;
      ValidJournal(k) && key in k.records && k.records[key].version <= j.records[key].version + 1
  {
    hide Writable, ValidRecord;
    if Due(j.records[key], now) {
      PutShape(j, key, j.records[key].(pollLease := Some(lease)));
    }
  }
}
