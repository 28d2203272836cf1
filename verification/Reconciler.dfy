/** Polling accepted work: poll leases, ordered observations and back-off.

    Every step reads the journal under the state lock and writes it back through the same gate
    as the runtime's own steps. */
module Reconciler {
  import opened Prelude
  import opened TaskContract
  import opened JournalRecord
  import opened Journal
  import opened RuntimeGate

  /** What one poll reported. */
  datatype Report = Report(
    status: Status, observedAt: int, outputs: Option<seq<ProviderOutput>>, retryCode: Option<ErrorCode>)

  /** The two instants a commit may schedule: the next regular poll and the next retry. */
  datatype Agenda = Agenda(pollAt: int, retryAt: int)

  /** The configured waiting times and the jitter of one task id. */
  datatype Timing = Timing(interval: nat, jitter: nat, retryBase: nat, retryMax: nat)

  /** The exponential back-off: doubled up to twenty times, then capped. */
  function Power2(n: nat): nat {
    if n == 0 then 1 else 2 * Power2(n - 1)
  }

  function RetryDelay(t: Timing, retryCount: int): int {
    Min(t.retryMax, t.retryBase * Power2(Max(0, Min(20, retryCount - 1))))
  }

  function RetryAt(t: Timing, retryCount: int, now: int): int {
    now + RetryDelay(t, retryCount)
  }

  function NextPollAt(t: Timing, now: int): int {
    now + t.interval + t.jitter
  }

  /** What a commit of `r` will schedule at `now`. */
  function AgendaFor(t: Timing, r: Record, now: int): Agenda {
    Agenda(NextPollAt(t, now), RetryAt(t, NextCount(r), now))
  }

  predicate Eligible(r: Record) {
    && r.task.Some?
    && r.submitId.Some?
    && (r.state == Accepted || r.state == Unknown || (r.state == Succeeded && r.outputs.None?))
  }

  predicate SameLease(r: Record, lease: PollLease) {
    r.pollLease.Some? && r.pollLease.value.leaseId == lease.leaseId && r.pollLease.value.ownerId == lease.ownerId
  }

  predicate Due(r: Record, now: int) {
    && Eligible(r)
    && r.nextPollAt.Some? && r.nextPollAt.value <= now
    && (r.pollLease.Some? ==> r.pollLease.value.expiresAt <= now)
  }

  predicate ValidReport(p: Report) {
    p.outputs.Some? ==>
      && p.status == StatusCompleted
      && p.retryCode.None?
      && 1 <= |p.outputs.value| <= 4
  }

  function CountOrZero(r: Record): int {
    if r.retryCount.Some? then r.retryCount.value else 0
  }

  function NextCount(r: Record): int {
    Min(CountOrZero(r) + 1, MAX_RETRIES)
  }

  function Started(r: Record, at: int): Record {
    r.(nextPollAt := Some(at), retryCount := Some(CountOrZero(r)))
  }

  function ClearedCode(code: Option<ErrorCode>): Option<ErrorCode> {
    if code == Some(CleanupFailed) then code else None
  }

  /** A success is contradicted by any other status. */
  predicate Contradicts(r: Record, p: Report) {
    r.state == Succeeded && p.status != StatusCompleted
  }

  function ReportedState(r: Record, p: Report): JournalState {
    if Contradicts(r, p) then Succeeded
    else match p.status
      case StatusPending => Accepted
      case StatusProcessing => Accepted
      case StatusCompleted => Succeeded
      case StatusCancelled => Cancelled
      case StatusFailed => Failed
  }

  function ReportedCode(r: Record, p: Report): Option<ErrorCode> {
    if Contradicts(r, p) then Some(ObservationConflict)
    else match p.status
      case StatusCancelled => Some(OfficialCancelled)
      case StatusFailed => Some(OfficialFailed)
      case StatusCompleted => if p.retryCode.Some? then p.retryCode else ClearedCode(r.errorCode)
      case _ => ClearedCode(r.errorCode)
  }

  function ReportedPoll(p: Report, when: Agenda): Option<int> {
    if p.status == StatusPending || p.status == StatusProcessing then Some(when.pollAt)
    else if p.status == StatusCompleted && p.retryCode.Some? then Some(when.retryAt)
    else None
  }

  /** A report older than the last one only gives the lease back. */
  predicate Stale(r: Record, p: Report) {
    r.lastObservedAt.Some? && p.observedAt < r.lastObservedAt.value
  }

  function ObservedRecord(r: Record, p: Report, when: Agenda, now: int): Record {
    if Stale(r, p) then
      var back := r.(pollLease := None);
      if Eligible(back) then back.(nextPollAt := Some(when.pollAt)) else back
    else
      r.(state := ReportedState(r, p),
         errorCode := ReportedCode(r, p),
         officialStatus := if Contradicts(r, p) then r.officialStatus else Some(p.status),
         outputs := if p.status == StatusCompleted && p.outputs.Some? then p.outputs else r.outputs,
         lastObservedAt := Some(p.observedAt),
         updatedAt := now,
         pollLease := None,
         retryCount := Some(if p.status == StatusCompleted && p.retryCode.Some? then NextCount(r) else 0),
         nextPollAt := ReportedPoll(p, when))
  }

  function SyncFailedRecord(r: Record, code: ErrorCode, when: Agenda, now: int): Record {
    r.(pollLease := None, errorCode := Some(code), retryCount := Some(NextCount(r)),
       nextPollAt := Some(when.retryAt), updatedAt := now)
  }

  // ---- Steps ---------------------------------------------------------------------------------------

  function Put(j: Journal, k: Id, r: Record): (w: Result<Journal, Error>)
    ensures w.Ok? ==> Written(j, w.value)
  {
    Persist(j, j.(records := j.records[k := r]))
  }

  function InitializeRecord(r: Record, at: int): Record {
    if Eligible(r) && r.nextPollAt.None? then Started(r, at) else r
  }

  function InitializeAll(records: map<Id, Record>, delays: Id -> nat, now: int): map<Id, Record> {
    map k | k in records :: InitializeRecord(records[k], now + delays(k))
  }

  /** `delays` is the deterministic start-up spread per key. */
  function Initialize(j: Journal, delays: Id -> nat, now: int): (r: Result<Journal, Error>)
    ensures r.Ok? ==> Written(j, r.value)
  {
    if exists k :: k in j.records && Eligible(j.records[k]) && j.records[k].nextPollAt.None?
    then Persist(j, Journal(InitializeAll(j.records, delays, now), j.nextTicket))
    else Ok(j)
  }

  function Schedule(j: Journal, k: Id, at: int): (r: Result<Journal, Error>)
    ensures r.Ok? ==> Written(j, r.value)
  {
    if k !in j.records || !Eligible(j.records[k]) then Ok(j)
    else if j.records[k].nextPollAt.Some? && j.records[k].nextPollAt.value <= at then Ok(j)
    else Put(j, k, Started(j.records[k], at))
  }

  function RequestNow(j: Journal, k: Id, now: int): (r: Result<Journal, Error>)
    ensures r.Ok? ==> Written(j, r.value)
  {
    if k !in j.records || !Eligible(j.records[k]) || j.records[k].nextPollAt == Some(now - 1) then Ok(j)
    else Put(j, k, Started(j.records[k], now - 1))
  }

  function ClaimKey(j: Journal, k: Id, lease: PollLease, now: int): (r: Result<Journal, Error>)
    ensures r.Ok? ==> Written(j, r.value)
  {
    if k !in j.records || !Due(j.records[k], now) then Ok(j)
    else Put(j, k, j.records[k].(pollLease := Some(lease)))
  }

  function RenewPollLease(j: Journal, k: Id, lease: PollLease, expiresAt: int): (r: Result<Journal, Error>)
    ensures r.Ok? ==> Written(j, r.value)
  {
    if k !in j.records || !SameLease(j.records[k], lease) then Err(CliFenced)
    else Put(j, k, j.records[k].(pollLease := Some(lease.(expiresAt := expiresAt))))
  }

  function CommitReport(j: Journal, k: Id, lease: PollLease, p: Report, when: Agenda, now: int): (r: Result<Journal, Error>)
    ensures r.Ok? ==> Written(j, r.value)
  {
    if k !in j.records || !SameLease(j.records[k], lease) then Ok(j)
    else Put(j, k, ObservedRecord(j.records[k], p, when, now))
  }

  function CommitSyncError(
    j: Journal, k: Id, lease: PollLease, code: ErrorCode, when: Agenda, now: int): (r: Result<Journal, Error>)
    ensures r.Ok? ==> Written(j, r.value)
  {
    if k !in j.records || !SameLease(j.records[k], lease) then Ok(j)
    else Put(j, k, SyncFailedRecord(j.records[k], code, when, now))
  }

  function ReleasePollLease(j: Journal, k: Id, lease: PollLease): (r: Result<Journal, Error>)
    ensures r.Ok? ==> Written(j, r.value)
  {
    if k !in j.records || !SameLease(j.records[k], lease) then Ok(j)
    else Put(j, k, j.records[k].(pollLease := None))
  }

  predicate OwnsPoll(r: Record, ownerId: Id) {
    r.pollLease.Some? && r.pollLease.value.ownerId == ownerId
  }

  function ReleaseOwnedRecord(r: Record, ownerId: Id): Record {
    if OwnsPoll(r, ownerId) then r.(pollLease := None) else r
  }

  predicate AnyOwned(records: map<Id, Record>, ownerId: Id) {
    exists k :: k in records && OwnsPoll(records[k], ownerId)
  }

  function ReleaseAll(records: map<Id, Record>, ownerId: Id): map<Id, Record> {
    map k | k in records :: ReleaseOwnedRecord(records[k], ownerId)
  }

  function ReleaseOwned(j: Journal, ownerId: Id): (r: Result<Journal, Error>)
    ensures r.Ok? ==> Written(j, r.value)
  {
    if AnyOwned(j.records, ownerId)
    then Persist(j, Journal(ReleaseAll(j.records, ownerId), j.nextTicket))
    else Ok(j)
  }

  // ---- The steps against the gate --------------------------------------------------------------------

  lemma PutExactly(j: Journal, k: Id, r: Record)
    requires ValidJournal(j) && k in j.records
    requires j.records[k].version < MAX_SAFE_INTEGER
    ensures Put(j, k, r) ==
      if Progresses(j.records[k], r) && Shaped(r)
      then Ok(j.(records := j.records[k := r.(version := NextVersion(j, k, r))])) else Err(StateInvalid)
  {
    PersistOne(j, k, r, j.nextTicket);
    StampedShape(r, NextVersion(j, k, r));
    assert j.(records := j.records[k := r]) == Journal(j.records[k := r], j.nextTicket);
    assert 1 <= NextVersion(j, k, r) <= MAX_SAFE_INTEGER by { assert ValidRecord(j.records[k]); }
  }

  /** A report fits a record when the artifacts it brings are of the record's medium. */
  predicate Fits(r: Record, p: Report) {
    ValidReport(p) && (p.outputs.Some? ==> r.task.Some? && ValidOutputs(p.outputs.value, r.task.value.mode))
  }

  /** A change of nothing but the polling fields passes the gate when the state moves legally. */
  lemma PolledProgress(r: Record, q: Record)
    requires ValidRecord(r) && Eligible(r) && r.outputs.None?
    requires q == r.(state := q.state, errorCode := q.errorCode, officialStatus := q.officialStatus,
                     outputs := q.outputs, lastObservedAt := q.lastObservedAt, updatedAt := q.updatedAt,
                     pollLease := q.pollLease, retryCount := q.retryCount, nextPollAt := q.nextPollAt)
    requires q.state == r.state || Reconciled(r, q) || (r.state == Accepted && StateRank(q.state) >= StateRank(Accepted))
    ensures Progresses(r, q)
  {
  }

  /** For every eligible record and every status, the record a report produces passes the gate. */
  lemma ReportProgresses(r: Record, p: Report, when: Agenda, now: int)
    requires ValidRecord(r) && Eligible(r)
    ensures Progresses(r, ObservedRecord(r, p, when, now))
  {
    assert r.outputs.None?;
    var q := ObservedRecord(r, p, when, now);
    if !Stale(r, p) && r.state != Accepted && r.state != q.state { assert Reconciled(r, q); }
    PolledProgress(r, q);
  }

  /** A change of nothing but the polling fields keeps a record with a receipt well shaped. */
  lemma PolledShape(r: Record, q: Record)
    requires ValidRecord(r) && r.task.Some? && r.submitId.Some?
    requires q == r.(state := q.state, errorCode := q.errorCode, officialStatus := q.officialStatus,
                     outputs := q.outputs, lastObservedAt := q.lastObservedAt, updatedAt := q.updatedAt,
                     pollLease := q.pollLease, retryCount := q.retryCount, nextPollAt := q.nextPollAt)
    requires q.state == Accepted || q.state == Succeeded || q.state == Failed || q.state == Cancelled || q.state == r.state
    requires q.retryCount.Some? ==> 0 <= q.retryCount.value <= MAX_RETRIES
    requires q.outputs.Some? ==>
      q.state == Succeeded && q.officialStatus == Some(StatusCompleted) && ValidOutputs(q.outputs.value, r.task.value.mode)
    ensures Shaped(q)
  {
  }

  lemma ReportIsShaped(r: Record, p: Report, when: Agenda, now: int)
    requires ValidRecord(r) && Eligible(r) && Fits(r, p)
    ensures Shaped(ObservedRecord(r, p, when, now))
  {
    hide Shaped, ValidOutputs;
    assert r.outputs.None?;
    if Stale(r, p) {
      PolledShape(r, ObservedRecord(r, p, when, now));
    } else {
      PolledShape(r, ObservedRecord(r, p, when, now));
    }
  }

  /** Observation times never go back, a success never regresses, and the lease is given back, so
      outputs and a poll lease never coexist. */
  lemma ReportsAreOrdered(r: Record, p: Report, when: Agenda, now: int)
    requires Eligible(r)
    ensures
      var q := ObservedRecord(r, p, when, now);
      && q.pollLease.None?
      && (r.lastObservedAt.Some? ==> q.lastObservedAt.Some? && r.lastObservedAt.value <= q.lastObservedAt.value)
      && (r.state == Succeeded ==> q.state == Succeeded)
      && (q.state != r.state ==> q.lastObservedAt == Some(p.observedAt) && q.officialStatus == Some(p.status))
      && (q.outputs != r.outputs ==> q.state == Succeeded && q.outputs == p.outputs)
  {
  }

  /** When polling of a record that is still eligible stops: exactly when a success is contradicted
      by a failure or a cancellation, and when the provider reports a completion without outputs and
      without a reason to retry. Every other report leaves it scheduled or no longer eligible. */
  lemma UnscheduledExactly(r: Record, p: Report, when: Agenda, now: int)
    requires Eligible(r) && !Stale(r, p)
    ensures
      var q := ObservedRecord(r, p, when, now);
      Eligible(q) && q.nextPollAt.None? <==>
        || (r.state == Succeeded && (p.status == StatusFailed || p.status == StatusCancelled))
        || (p.status == StatusCompleted && p.outputs.None? && r.outputs.None? && p.retryCode.None?)
  {
  }

  lemma ReportIsAccepted(j: Journal, k: Id, lease: PollLease, p: Report, when: Agenda, now: int)
    requires ValidJournal(j) && k in j.records && j.records[k].version < MAX_SAFE_INTEGER
    requires Eligible(j.records[k]) && Fits(j.records[k], p)
    ensures CommitReport(j, k, lease, p, when, now).Ok?
  {
    if SameLease(j.records[k], lease) {
      assert ValidRecord(j.records[k]);
      ReportProgresses(j.records[k], p, when, now);
      ReportIsShaped(j.records[k], p, when, now);
      PutExactly(j, k, ObservedRecord(j.records[k], p, when, now));
    }
  }

  /** A record the runtime failed while it was being polled is no longer eligible, but its lease
      holder still commits: the write is accepted exactly when the report is stale or confirms
      the failure. */
  lemma LateReportExactly(j: Journal, k: Id, lease: PollLease, p: Report, when: Agenda, now: int)
    requires ValidJournal(j) && k in j.records && j.records[k].version < MAX_SAFE_INTEGER
    requires j.records[k].state == Failed && j.records[k].task.Some? && SameLease(j.records[k], lease)
    requires Fits(j.records[k], p)
    ensures CommitReport(j, k, lease, p, when, now).Ok? <==> Stale(j.records[k], p) || p.status == StatusFailed
  {
    assert ValidRecord(j.records[k]);
    LateReportIsLegal(j.records[k], p, when, now);
    PutExactly(j, k, ObservedRecord(j.records[k], p, when, now));
  }

  lemma LateReportIsLegal(r: Record, p: Report, when: Agenda, now: int)
    requires ValidRecord(r) && r.state == Failed && r.task.Some? && Fits(r, p)
    ensures (Progresses(r, ObservedRecord(r, p, when, now)) && Shaped(ObservedRecord(r, p, when, now)))
      <==> (Stale(r, p) || p.status == StatusFailed)
  {
  }

  lemma SyncErrorIsAccepted(j: Journal, k: Id, lease: PollLease, code: ErrorCode, when: Agenda, now: int)
    requires ValidJournal(j) && k in j.records && j.records[k].version < MAX_SAFE_INTEGER
    requires j.records[k].task.Some?
    ensures CommitSyncError(j, k, lease, code, when, now).Ok?
  {
    assert ValidRecord(j.records[k]);
    PutExactly(j, k, SyncFailedRecord(j.records[k], code, when, now));
  }

  lemma PollLeaseIsLegal(r: Record, lease: Option<PollLease>)
    requires ValidRecord(r) && r.task.Some?
    ensures Progresses(r, r.(pollLease := lease)) && Shaped(r.(pollLease := lease))
  {
  }

  lemma PollLeaseStepsAreAccepted(j: Journal, k: Id, lease: PollLease, now: int, at: int)
    requires ValidJournal(j) && k in j.records && j.records[k].version < MAX_SAFE_INTEGER
    requires j.records[k].task.Some?
    ensures ClaimKey(j, k, lease, now).Ok? && ReleasePollLease(j, k, lease).Ok?
    ensures RenewPollLease(j, k, lease, at).Ok? <==> SameLease(j.records[k], lease)
  {
    assert ValidRecord(j.records[k]);
    assert ClaimKey(j, k, lease, now).Ok? by {
      PollLeaseIsLegal(j.records[k], Some(lease));
      PutExactly(j, k, j.records[k].(pollLease := Some(lease)));
    }
    assert ReleasePollLease(j, k, lease).Ok? by {
      PollLeaseIsLegal(j.records[k], None);
      PutExactly(j, k, j.records[k].(pollLease := None));
    }
    var renewed := lease.(expiresAt := at);
    assert RenewPollLease(j, k, lease, at).Ok? <==> SameLease(j.records[k], lease) by {
      PollLeaseIsLegal(j.records[k], Some(renewed));
      PutExactly(j, k, j.records[k].(pollLease := Some(renewed)));
    }
  }

  lemma StartedIsLegal(r: Record, at: int)
    requires ValidRecord(r) && r.task.Some?
    ensures Progresses(r, Started(r, at)) && Shaped(Started(r, at))
  {
  }

  lemma PutStarted(j: Journal, k: Id, at: int)
    requires ValidJournal(j) && k in j.records && j.records[k].version < MAX_SAFE_INTEGER && j.records[k].task.Some?
    ensures Put(j, k, Started(j.records[k], at)).Ok?
  {
    assert ValidRecord(j.records[k]);
    StartedIsLegal(j.records[k], at);
    PutExactly(j, k, Started(j.records[k], at));
  }

  lemma SchedulingIsAccepted(j: Journal, k: Id, at: int, now: int)
    requires ValidJournal(j) && k in j.records && j.records[k].version < MAX_SAFE_INTEGER
    ensures Schedule(j, k, at).Ok? && RequestNow(j, k, now).Ok?
  {
    if Eligible(j.records[k]) {
      PutStarted(j, k, at);
      PutStarted(j, k, now - 1);
    }
  }

  lemma CommitWrites(j: Journal, k: Id, lease: PollLease, p: Report, when: Agenda, now: int)
    requires k in j.records && SameLease(j.records[k], lease) && CommitReport(j, k, lease, p, when, now).Ok?
    ensures
      var r := ObservedRecord(j.records[k], p, when, now);
      CommitReport(j, k, lease, p, when, now).value ==
        j.(records := j.records[k := r.(version := NextVersion(j, k, r))])
  {
    var r := ObservedRecord(j.records[k], p, when, now);
    assert j.(records := j.records[k := r]) == Journal(j.records[k := r], j.nextTicket);
    PersistOneInverse(j, k, r, j.nextTicket);
  }

  lemma SpentLease(r: Record, p: Report, when: Agenda, now: int, lease: PollLease, version: int)
    ensures !SameLease(ObservedRecord(r, p, when, now).(version := version), lease)
  {
  }

  /** Only the holder of the current lease changes a record, and only once: the lease is spent by
      the commit, so a repeated or a superseded commit leaves the journal as it is. */
  lemma LeaseCommitsOnce(
    j: Journal, k: Id, lease: PollLease, p: Report, when: Agenda, now: int, again: Report, later: int)
    requires CommitReport(j, k, lease, p, when, now).Ok?
    ensures
      var after := CommitReport(j, k, lease, p, when, now).value;
      && (after != j ==> k in j.records && SameLease(j.records[k], lease))
      && CommitReport(after, k, lease, again, when, later) == Ok(after)
  {
    var after := CommitReport(j, k, lease, p, when, now).value;
    if k in j.records && SameLease(j.records[k], lease) {
      CommitWrites(j, k, lease, p, when, now);
      var r := ObservedRecord(j.records[k], p, when, now);
      SpentLease(j.records[k], p, when, now, lease, NextVersion(j, k, r));
    }
    RefusedCommit(after, k, lease, again, when, later);
  }

  lemma RefusedCommit(j: Journal, k: Id, lease: PollLease, p: Report, when: Agenda, now: int)
    requires k in j.records ==> !SameLease(j.records[k], lease)
    ensures CommitReport(j, k, lease, p, when, now) == Ok(j)
  {
  }

  // ---- Back-off ----------------------------------------------------------------------------------------

  lemma {:induction false} Power2Monotone(m: nat, n: nat)
    requires m <= n
    ensures 1 <= Power2(m) <= Power2(n)
    decreases n
  {
    if n > 0 {
      if m < n {
        Power2Monotone(m, n - 1);
      } else {
        Power2Monotone(n - 1, n - 1);
      }
    }
  }

  lemma ScaleMonotone(base: nat, x: nat, y: nat)
    requires x <= y
    ensures base * x <= base * y
  {
  }

  /** The delay never shrinks with further failures, starts at the base and stays under the cap. */
  lemma RetryDelayMonotone(t: Timing, m: int, n: int)
    requires m <= n && t.retryBase <= t.retryMax
    ensures t.retryBase <= RetryDelay(t, m) <= RetryDelay(t, n) <= t.retryMax
  {
    var a, b := Max(0, Min(20, m - 1)), Max(0, Min(20, n - 1));
    Power2Monotone(a, b);
    ScaleMonotone(t.retryBase, 1, Power2(a));
    ScaleMonotone(t.retryBase, Power2(a), Power2(b));
  }
}
