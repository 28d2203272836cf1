/** One reconciler instance: its locked steps on the journal file, written as the source writes
    them, field by field, and tied to the functions of module Reconciler. */
module ReconcilerProcess {
  import opened Prelude
  import opened TaskContract
  import opened JournalRecord
  import opened Journal
  import Polls = Reconciler

  /** `compareDue`: by due time, then by last observation (never observed first), then by id. */
  predicate DueBefore(records: map<Id, Record>, a: Id, b: Id)
    requires a in records && b in records && records[a].nextPollAt.Some? && records[b].nextPollAt.Some?
  {
    var l, r := records[a], records[b];
    if l.nextPollAt != r.nextPollAt then l.nextPollAt.value < r.nextPollAt.value
    else if l.lastObservedAt != r.lastObservedAt then
      l.lastObservedAt.None? || (r.lastObservedAt.Some? && l.lastObservedAt.value < r.lastObservedAt.value)
    else a < b
  }

  class Instance {
    const instanceId: Id
    const timing: Polls.Timing
    const leaseMs: nat
    const file: JournalFile

    constructor (instanceId: Id, timing: Polls.Timing, leaseMs: nat, file: JournalFile)
      ensures this.instanceId == instanceId && this.timing == timing && this.leaseMs == leaseMs && this.file == file
    {
      this.instanceId, this.timing, this.leaseMs, this.file := instanceId, timing, leaseMs, file;
    }

    method WriteRecord(key: Id, r: Record) returns (result: Result<Journal, Error>)
      modifies file
      ensures result == Polls.Put(old(file.image), key, r)
      ensures file.image == if result.Ok? then result.value else old(file.image)
    {
      result := file.PersistState(file.image.(records := file.image.records[key := r]));
    }

    /** The least due record, if any is due. */
    method FirstDue(now: int) returns (first: Option<Id>)
      ensures first.None? <==> forall k :: k in file.image.records ==> !Polls.Due(file.image.records[k], now)
      ensures first.Some? ==>
        && first.value in file.image.records
        && Polls.Due(file.image.records[first.value], now)
        && forall k :: k in file.image.records && k != first.value && Polls.Due(file.image.records[k], now) ==>
             DueBefore(file.image.records, first.value, k)
    {
      var records := file.image.records;
      first := None;
      var todo := records.Keys;
      while todo != {}
        invariant todo <= records.Keys
        invariant first.None? <==> forall k :: k in records && k !in todo ==> !Polls.Due(records[k], now)
        invariant first.Some? ==>
          && first.value in records && first.value !in todo && Polls.Due(records[first.value], now)
          && forall k :: k in records && k !in todo && k != first.value && Polls.Due(records[k], now) ==>
               DueBefore(records, first.value, k)
      {
        var k :| k in todo;
        if Polls.Due(records[k], now) && (first.None? || DueBefore(records, k, first.value)) {
          first := Some(k);
        }
        todo := todo - {k};
      }
    }

    /** Leases the first due record, so the one that has been waiting longest. */
    method ClaimDue(leaseId: Id, now: int) returns (claimed: Option<Id>, result: Result<Journal, Error>)
      modifies file
      ensures claimed.None? ==>
        file.image == old(file.image)
        && (result.Ok? ==> forall k :: k in file.image.records ==> !Polls.Due(file.image.records[k], now))
      ensures claimed.Some? ==>
        var j, k, lease := old(file.image), claimed.value, PollLease(leaseId, instanceId, now + leaseMs);
        && k in j.records && Polls.Due(j.records[k], now)
        && (forall i :: i in j.records && i != k && Polls.Due(j.records[i], now) ==> DueBefore(j.records, k, i))
        && result == Polls.ClaimKey(j, k, lease, now) == Ok(file.image)
    {
      var due := FirstDue(now);
      if due.None? { return None, Ok(file.image); }
      var lease := PollLease(leaseId, instanceId, now + leaseMs);
      result := WriteRecord(due.value, file.image.records[due.value].(pollLease := Some(lease)));
      claimed := if result.Ok? then due else None;
    }

    method RenewLease(key: Id, lease: PollLease, now: int) returns (result: Result<Journal, Error>)
      modifies file
      ensures result == Polls.RenewPollLease(old(file.image), key, lease, now + leaseMs)
      ensures file.image == if result.Ok? then result.value else old(file.image)
    {
      if key !in file.image.records || !Polls.SameLease(file.image.records[key], lease) { return Err(CliFenced); }
      var r := file.image.records[key];
      result := WriteRecord(key, r.(pollLease := Some(lease.(expiresAt := now + leaseMs))));
    }

    /** The assignments of `applyObservation`, in their order. */
    static method ApplyObservation(r: Record, p: Polls.Report) returns (q: Record)
      ensures q == r.(state := Polls.ReportedState(r, p),
                      errorCode := Polls.ReportedCode(r, p),
                      officialStatus := if Polls.Contradicts(r, p) then r.officialStatus else Some(p.status),
                      outputs := if p.status == StatusCompleted && p.outputs.Some? then p.outputs else r.outputs)
    {
      q := r;
      if r.state == Succeeded && p.status != StatusCompleted {
        return q.(errorCode := Some(ObservationConflict));
      }
      q := q.(officialStatus := Some(p.status));
      if p.status == StatusPending || p.status == StatusProcessing {
        q := q.(state := Accepted);
        if q.errorCode != Some(CleanupFailed) { q := q.(errorCode := None); }
        return;
      }
      if p.status == StatusCompleted {
        q := q.(state := Succeeded);
        if p.outputs.Some? { q := q.(outputs := p.outputs); }
        if p.retryCode.Some? { q := q.(errorCode := p.retryCode); }
        else if q.errorCode != Some(CleanupFailed) { q := q.(errorCode := None); }
        return;
      }
      if p.status == StatusCancelled {
        return q.(state := Cancelled, errorCode := Some(OfficialCancelled));
      }
      return q.(state := Failed, errorCode := Some(OfficialFailed));
    }

    /** The whole rewrite of a record by a report, in the order of the source. */
    method Observe(r: Record, p: Polls.Report, now: int) returns (q: Record)
      ensures q == Polls.ObservedRecord(r, p, Polls.AgendaFor(timing, r, now), now)
    {
      if r.lastObservedAt.Some? && p.observedAt < r.lastObservedAt.value {
        q := r.(pollLease := None);
        if Polls.Eligible(q) { q := q.(nextPollAt := Some(Polls.NextPollAt(timing, now))); }
        return;
      }
      q := ApplyObservation(r, p);
      q := q.(lastObservedAt := Some(p.observedAt), updatedAt := now);
      q := q.(pollLease := None);
      if p.status == StatusPending || p.status == StatusProcessing {
        q := q.(retryCount := Some(0));
        q := q.(nextPollAt := Some(Polls.NextPollAt(timing, now)));
      } else if p.status == StatusCompleted && p.retryCode.Some? {
        var count := Min(Polls.CountOrZero(q) + 1, MAX_RETRIES);
        q := q.(retryCount := Some(count));
        q := q.(errorCode := p.retryCode);
        q := q.(nextPollAt := Some(Polls.RetryAt(timing, count, now)));
      } else {
        q := q.(retryCount := Some(0));
        q := q.(nextPollAt := None);
      }
    }

    method CommitObservation(key: Id, lease: PollLease, p: Polls.Report, now: int) returns (result: Result<Journal, Error>)
      modifies file
      ensures
        var j := old(file.image);
        key in j.records ==>
          result == Polls.CommitReport(j, key, lease, p, Polls.AgendaFor(timing, j.records[key], now), now)
      ensures key !in old(file.image).records ==> result == Ok(old(file.image))
      ensures file.image == if result.Ok? then result.value else old(file.image)
    {
      if key !in file.image.records || !Polls.SameLease(file.image.records[key], lease) { return Ok(file.image); }
      var q := Observe(file.image.records[key], p, now);
      result := WriteRecord(key, q);
    }

    method CommitSyncError(key: Id, lease: PollLease, code: ErrorCode, now: int) returns (result: Result<Journal, Error>)
      modifies file
      ensures
        var j := old(file.image);
        key in j.records ==>
          result == Polls.CommitSyncError(j, key, lease, code, Polls.AgendaFor(timing, j.records[key], now), now)
      ensures key !in old(file.image).records ==> result == Ok(old(file.image))
      ensures file.image == if result.Ok? then result.value else old(file.image)
    {
      if key !in file.image.records || !Polls.SameLease(file.image.records[key], lease) { return Ok(file.image); }
      var r := file.image.records[key];
      var count := Polls.NextCount(r);
      r := r.(pollLease := None, errorCode := Some(code), retryCount := Some(count),
              nextPollAt := Some(Polls.RetryAt(timing, count, now)), updatedAt := now);
      result := WriteRecord(key, r);
    }

    method ReleaseLease(key: Id, lease: PollLease) returns (result: Result<Journal, Error>)
      modifies file
      ensures result == Polls.ReleasePollLease(old(file.image), key, lease)
      ensures file.image == if result.Ok? then result.value else old(file.image)
    {
      if key !in file.image.records || !Polls.SameLease(file.image.records[key], lease) { return Ok(file.image); }
      result := WriteRecord(key, file.image.records[key].(pollLease := None));
    }

    method ReleaseOwnedLeases() returns (result: Result<Journal, Error>)
      modifies file
      ensures result == Polls.ReleaseOwned(old(file.image), instanceId)
      ensures file.image == if result.Ok? then result.value else old(file.image)
    {
      var records, changed := DropOwnedLeases(file.image.records);
      if !changed { return Ok(file.image); }
      result := file.PersistState(Journal(records, file.image.nextTicket));
    }

    method DropOwnedLeases(before: map<Id, Record>) returns (records: map<Id, Record>, changed: bool)
      ensures records == Polls.ReleaseAll(before, instanceId)
      ensures changed <==> Polls.AnyOwned(before, instanceId)
    {
      records, changed := before, false;
      var todo := records.Keys;
      while todo != {}
        invariant todo <= records.Keys == before.Keys
        invariant forall k :: k in todo ==> records[k] == before[k]
        invariant forall k :: k in records && k !in todo ==> records[k] == Polls.ReleaseOwnedRecord(before[k], instanceId)
        invariant changed <==> exists k :: k in before && k !in todo && Polls.OwnsPoll(before[k], instanceId)
      {
        var k :| k in todo;
        if Polls.OwnsPoll(records[k], instanceId) {
          records := records[k := records[k].(pollLease := None)];
          changed := true;
        }
        todo := todo - {k};
      }
    }

    predicate NeedsStart(r: Record) {
      Polls.Eligible(r) && r.nextPollAt.None?
    }

    /** All records but those of `todo` are as start-up leaves them; `changed` tells whether one changed. */
    ghost predicate StartedExcept(
      records: map<Id, Record>, changed: bool, disk: map<Id, Record>, todo: set<Id>, delays: Id -> nat, now: int)
    {
      && todo <= records.Keys == disk.Keys
      && (forall k :: k in records ==>
            records[k] == if k in todo then disk[k] else Polls.InitializeRecord(disk[k], now + delays(k)))
      && (changed <==> exists k :: k in disk && k !in todo && NeedsStart(disk[k]))
    }

    lemma StartsOne(
      records: map<Id, Record>, changed: bool, disk: map<Id, Record>, todo: set<Id>, delays: Id -> nat, now: int, k: Id)
      requires StartedExcept(records, changed, disk, todo, delays, now) && k in todo
      ensures
        var due := NeedsStart(records[k]);
        StartedExcept(if due then records[k := Polls.Started(records[k], now + delays(k))] else records, changed || due, disk,
                      todo - {k}, delays, now)
    {
      assert records[k] == disk[k];
    }

    lemma AllStarted(records: map<Id, Record>, changed: bool, disk: map<Id, Record>, delays: Id -> nat, now: int)
      requires StartedExcept(records, changed, disk, {}, delays, now)
      ensures records == Polls.InitializeAll(disk, delays, now)
      ensures changed <==> exists k :: k in disk && NeedsStart(disk[k])
    {
    }

    method InitializePolls(delays: Id -> nat, now: int) returns (result: Result<Journal, Error>)
      modifies file
      ensures result == Polls.Initialize(old(file.image), delays, now)
      ensures file.image == if result.Ok? then result.value else old(file.image)
    {
      var records, changed := file.image.records, false;
      var todo := records.Keys;
      while todo != {}
        invariant file.image == old(file.image)
        invariant StartedExcept(records, changed, file.image.records, todo, delays, now)
      {
        var k :| k in todo;
        StartsOne(records, changed, file.image.records, todo, delays, now, k);
        if NeedsStart(records[k]) {
          records := records[k := Polls.Started(records[k], now + delays(k))];
          changed := true;
        }
        todo := todo - {k};
      }
      AllStarted(records, changed, file.image.records, delays, now);
      if !changed { return Ok(file.image); }
      result := file.PersistState(Journal(records, file.image.nextTicket));
    }
  }
}
