/** One runtime process: its memory of the records and its locked steps on the journal file.

    Every method is one critical section under the state lock: reload, look, change the record
    in memory, persist. The contracts say that this is the step of the same name in module
    RuntimeSteps, applied to the reloaded journal. */
module RuntimeProcess {
  import opened Prelude
  import opened TaskContract
  import opened JournalRecord
  import opened Journal
  import opened QueueOrder
  import Steps = RuntimeSteps

  class Runtime {
    const ownerId: Id
    const leaseMs: nat
    const maxActive: nat
    const file: JournalFile
    var records: map<Id, Record>
    var nextTicket: int

    constructor (ownerId: Id, leaseMs: nat, maxActive: nat, file: JournalFile)
      ensures this.ownerId == ownerId && this.leaseMs == leaseMs && this.maxActive == maxActive && this.file == file
      ensures records == map[]
    {
      this.ownerId, this.leaseMs, this.maxActive, this.file := ownerId, leaseMs, maxActive, file;
      records, nextTicket := map[], 1;
    }

    /** The memory mirrors the file, and the ticket counter is the loaded one. */
    ghost predicate Mirrors()
      reads this, file
    {
      records == file.image.records && Steps.IsLoadedTicket(file.image, nextTicket)
    }

    method PersistUnlocked() returns (result: Result<Journal, Error>)
      modifies this`records, file
      ensures result == Persist(old(file.image), Journal(old(records), nextTicket))
      ensures file.image == if result.Ok? then result.value else old(file.image)
      ensures records == if result.Ok? then result.value.records else old(records)
    {
      result := file.PersistState(Journal(records, nextTicket));
      if result.Ok? { records := file.image.records; }
    }

    /** Recovers what expired, refuses a disk behind this memory, and replaces the memory. */
    method ReloadFromDisk(now: int) returns (result: Result<Journal, Error>)
      modifies this, file
      ensures result == Steps.Reload(old(records), old(file.image), now)
      ensures file.image == if result.Ok? then result.value else old(file.image)
      ensures result.Ok? ==> Mirrors()
    {
      ghost var disk := file.image;
      var next, recovered := RecoverRecords(now);
      var coherent := CheckCoherent(next, now);
      if !coherent { return Err(StateInvalid); }
      nextTicket := FindNextTicket();
      records := next;
      if recovered {
        result := PersistUnlocked();
        if result.Ok? { RecoveredTicket(disk, now, nextTicket); }
      } else {
        NothingToRecover(disk, now);
        result := Ok(file.image);
      }
    }

    /** Every record this process remembers must still be there, and not behind the memory. */
    method CheckCoherent(next: map<Id, Record>, now: int) returns (coherent: bool)
      requires next == Steps.RecoverAll(file.image.records, now)
      ensures coherent <==> Steps.Coherent(records, file.image, now)
    {
      RecoveryKeepsRequests(file.image.records, now);
      var todo := records.Keys;
      while todo != {}
        invariant todo <= records.Keys
        invariant forall k :: k in records && k !in todo ==>
          k in next && next[k].requestHash == records[k].requestHash
          && StateRank(next[k].state) >= StateRank(records[k].state)
      {
        var k :| k in todo;
        if k !in next || next[k].requestHash != records[k].requestHash
           || StateRank(next[k].state) < StateRank(records[k].state) {
          return false;
        }
        todo := todo - {k};
      }
      return true;
    }

    lemma RecoveryKeepsRequests(disk: map<Id, Record>, now: int)
      ensures forall k :: k in disk ==> Steps.RecoverAll(disk, now)[k].requestHash == disk[k].requestHash
    {
    }

    lemma NothingToRecover(disk: Journal, now: int)
      requires !Steps.AnyExpired(disk.records, now)
      ensures Steps.RecoverAll(disk.records, now) == disk.records
    {
    }

    method RecoverRecords(now: int) returns (next: map<Id, Record>, recovered: bool)
      ensures next == Steps.RecoverAll(file.image.records, now)
      ensures recovered <==> Steps.AnyExpired(file.image.records, now)
    {
      next, recovered := file.image.records, false;
      var todo := next.Keys;
      while todo != {}
        invariant todo <= next.Keys == file.image.records.Keys
        invariant forall k :: k in next ==>
          next[k] == if k in todo then file.image.records[k] else Steps.RecoverRecord(file.image.records[k], now)
        invariant recovered <==>
          exists k :: k in file.image.records && k !in todo && Steps.NeedsRecovery(file.image.records[k], now)
      {
        var k :| k in todo;
        if Steps.NeedsRecovery(next[k], now) { recovered := true; }
        next := next[k := Steps.RecoverRecord(next[k], now)];
        todo := todo - {k};
      }
    }

    method FindNextTicket() returns (ticket: int)
      ensures Steps.IsLoadedTicket(file.image, ticket)
    {
      ticket := file.image.nextTicket;
      var todo := file.image.records.Keys;
      while todo != {}
        invariant todo <= file.image.records.Keys
        invariant file.image.nextTicket <= ticket
        invariant forall k :: k in file.image.records && k !in todo && file.image.records[k].queueTicket.Some? ==>
          file.image.records[k].queueTicket.value < ticket
        invariant ticket == file.image.nextTicket
          || exists k :: k in file.image.records && file.image.records[k].queueTicket == Some(ticket - 1)
      {
        var k :| k in todo;
        var t := file.image.records[k].queueTicket;
        if t.Some? && ticket <= t.value { ticket := t.value + 1; }
        todo := todo - {k};
      }
    }

    /** After recovery was written the loaded counter is still the loaded one. */
    lemma RecoveredTicket(disk: Journal, now: int, ticket: int)
      requires Steps.IsLoadedTicket(disk, ticket)
      requires Persist(disk, Journal(Steps.RecoverAll(disk.records, now), ticket)).Ok?
      ensures Steps.IsLoadedTicket(Persist(disk, Journal(Steps.RecoverAll(disk.records, now), ticket)).value, ticket)
    {
      Steps.RecoveredHasNoNewTickets(disk, now, ticket);
      NoNewTicketsKeepsCounter(disk, Versioned(disk, Journal(Steps.RecoverAll(disk.records, now), ticket)), ticket);
    }

    lemma NoNewTicketsKeepsCounter(j: Journal, k: Journal, ticket: int)
      requires Steps.IsLoadedTicket(j, ticket) && Steps.NoNewTickets(j, k) && k.nextTicket == ticket
      ensures Steps.IsLoadedTicket(k, ticket)
    {
    }

    lemma NoNewTicketsStayApart(j: Journal, k: Journal)
      requires TicketsDiffer(j) && Steps.NoNewTickets(j, k)
      ensures TicketsDiffer(k)
    {
    }

    /** Replace one record in memory and persist. */
    method WriteRecord(key: Id, r: Record) returns (result: Result<Journal, Error>)
      requires Mirrors()
      modifies this`records, file
      ensures result == Steps.WriteBack(old(file.image), key, r)
      ensures file.image == if result.Ok? then result.value else old(file.image)
      ensures result.Ok? ==> records == file.image.records
    {
      records := records[key := r];
      result := PersistUnlocked();
    }

    method EnqueueNew(key: Id, requestHash: Id, task: TaskInfo, now: int) returns (result: Result<Journal, Error>)
      modifies this, file
      ensures
        var loaded := Steps.Reload(old(records), old(file.image), now);
        if loaded.Err? then result == loaded && file.image == old(file.image) else
          && result == Steps.EnqueueNew(loaded.value, key, requestHash, task, ownerId, now, leaseMs)
          && file.image == (if result.Ok? then result.value else loaded.value)
    {
      result := ReloadFromDisk(now);
      if result.Err? { return; }
      if key in records {
        return Err(if records[key].requestHash != requestHash then IdempotencyConflict else ReplayForbidden);
      }
      var ticket := nextTicket;
      if !(1 <= ticket < MAX_SAFE_INTEGER) { return Err(StateInvalid); }
      result := AddRecord(key, Steps.QueuedRecord(requestHash, task, ownerId, now + leaseMs, ticket));
    }

    /** Hand out the next ticket, add a record in memory and persist. */
    method AddRecord(key: Id, r: Record) returns (result: Result<Journal, Error>)
      requires Mirrors()
      modifies this, file
      ensures
        var j := old(file.image);
        && result == Persist(j, Journal(j.records[key := r], Steps.LoadedTicket(j) + 1))
        && file.image == (if result.Ok? then result.value else j)
    {
      nextTicket := nextTicket + 1;
      records := records[key := r];
      result := PersistUnlocked();
    }

    /** Forget a record and persist. */
    method RemoveRecord(key: Id) returns (result: Result<Journal, Error>)
      requires Mirrors()
      modifies this`records, file
      ensures
        var j := old(file.image);
        && result == Persist(j, Journal(j.records - {key}, Steps.LoadedTicket(j)))
        && file.image == (if result.Ok? then result.value else j)
    {
      records := records - {key};
      result := PersistUnlocked();
    }

    method RenewQueueLease(key: Id, requestHash: Id, now: int) returns (result: Result<Journal, Error>)
      modifies this, file
      ensures
        var loaded := Steps.Reload(old(records), old(file.image), now);
        if loaded.Err? then result == loaded && file.image == old(file.image) else
          && result == Steps.RenewQueueLease(loaded.value, key, requestHash, ownerId, now, leaseMs)
          && file.image == (if result.Ok? then result.value else loaded.value)
    {
      result := ReloadFromDisk(now);
      if result.Err? { return; }
      if key !in records || records[key].requestHash != requestHash || !LiveQueueLease(records[key], now)
         || records[key].queueLease.value.ownerId != ownerId {
        return Err(CliFenced);
      }
      var r := records[key];
      result := WriteRecord(key, r.(queueLease := Some(r.queueLease.value.(expiresAt := now + leaseMs))));
    }

    /** Takes a slot for the queued task if it stands in front of the live queue. The caller knows
        from `granted` whether it holds the reservation now. */
    method ReserveSubmissionSlot(key: Id, requestHash: Id, reservationId: Id, now: int)
      returns (result: Result<Journal, Error>, granted: bool)
      requires TicketsDiffer(file.image)
      modifies this, file
      ensures
        var claim := Steps.Claim(key, requestHash, reservationId, ownerId);
        var loaded := Steps.Reload(old(records), old(file.image), now);
        if loaded.Err? then result == loaded && file.image == old(file.image) && !granted else
          && result == Steps.ReserveSlot(loaded.value, claim, now, leaseMs, maxActive)
          && file.image == (if result.Ok? then result.value else loaded.value)
          && (granted <==> result.Ok? && HasPriority(loaded.value, now, key, maxActive))
    {
      granted := false;
      ghost var disk := file.image;
      result := ReloadFromDisk(now);
      if result.Err? { return; }
      ReloadKeepsTicketsApart(old(records), disk, now);
      result, granted := PromoteQueued(key, requestHash, reservationId, now);
    }

    method PromoteQueued(key: Id, requestHash: Id, reservationId: Id, now: int)
      returns (result: Result<Journal, Error>, granted: bool)
      requires Mirrors() && TicketsDiffer(file.image)
      modifies this`records, file
      ensures
        var claim := Steps.Claim(key, requestHash, reservationId, ownerId);
        var j := old(file.image);
        && result == Steps.ReserveSlot(j, claim, now, leaseMs, maxActive)
        && file.image == (if result.Ok? then result.value else j)
        && (granted <==> result.Ok? && HasPriority(j, now, key, maxActive))
    {
      if key !in records || records[key].requestHash != requestHash { return Err(StateInvalid), false; }
      if records[key].state != Queued { return Err(ReplayForbidden), false; }
      var first := FindPriority(file.image, now, key, maxActive);
      if !first { return Ok(file.image), false; }
      var r := Steps.ClearQueueLease(records[key]);
      r := r.(state := Pending,
              reservation := Reservation(reservationId, ownerId, now + leaseMs, Reserved),
              updatedAt := now);
      ghost var claim := Steps.Claim(key, requestHash, reservationId, ownerId);
      assert r == Steps.ReservedRecord(old(records)[key], claim, now, leaseMs);
      result := WriteRecord(key, r);
      granted := result.Ok?;
    }

    lemma ReloadKeepsTicketsApart(memory: map<Id, Record>, disk: Journal, now: int)
      requires TicketsDiffer(disk) && Steps.Reload(memory, disk, now).Ok?
      ensures TicketsDiffer(Steps.Reload(memory, disk, now).value)
    {
      var after := Steps.Recover(disk, now).value;
      if after != disk {
        var ticket := Steps.LoadedTicket(disk);
        Steps.RecoveredHasNoNewTickets(disk, now, ticket);
        NoNewTicketsStayApart(disk, Versioned(disk, Journal(Steps.RecoverAll(disk.records, now), ticket)));
      }
    }

    method RenewReservation(claim: Steps.Claim, now: int) returns (result: Result<Journal, Error>)
      modifies this, file
      ensures
        var loaded := Steps.Reload(old(records), old(file.image), now);
        if loaded.Err? then result == loaded && file.image == old(file.image) else
          && result == Steps.RenewReservation(loaded.value, claim, now, leaseMs)
          && file.image == (if result.Ok? then result.value else loaded.value)
    {
      result := ReloadFromDisk(now);
      if result.Err? { return; }
      if claim.key !in records || !Steps.MatchesReservation(records[claim.key], claim)
         || !Steps.LiveReservation(records[claim.key], now) {
        return Err(CliFenced);
      }
      result := WriteRecord(claim.key, Steps.RenewedRecord(records[claim.key], now, leaseMs));
    }

    method CommitInvocationFence(claim: Steps.Claim, fence: int, session: Option<Account>, now: int)
      returns (result: Result<Journal, Error>)
      modifies this, file
      ensures
        var loaded := Steps.Reload(old(records), old(file.image), now);
        if loaded.Err? then result == loaded && file.image == old(file.image) else
          && result == Steps.CommitFence(loaded.value, claim, fence, session, now, leaseMs)
          && file.image == (if result.Ok? then result.value else loaded.value)
    {
      result := ReloadFromDisk(now);
      if result.Err? { return; }
      if claim.key !in records || !Steps.MatchesReservation(records[claim.key], claim)
         || !Steps.LiveReservation(records[claim.key], now) {
        return Err(CliFenced);
      }
      var r := records[claim.key];
      if r.fence.Some? && r.fence.value > fence { return Err(CliFenced); }
      r := r.(fence := Some(fence));
      if session.Some? {
        if r.account.Some? && r.account.value.binding != session.value.binding { return Err(AccountChanged); }
        r := r.(account := session);
      }
      r := r.(reservation := Reservation(r.reservation.id, r.reservation.ownerId, now + leaseMs, SpawnPermitted));
      result := WriteRecord(claim.key, r);
    }

    method CommitAcceptedReceipt(
      claim: Steps.Claim, fence: int, submitId: Id, session: Option<Account>, current: bool, now: int)
      returns (result: Result<Journal, Error>)
      modifies this, file
      ensures
        var loaded := Steps.Reload(old(records), old(file.image), now);
        if loaded.Err? then result == loaded && file.image == old(file.image) else
          && result == Steps.CommitAccepted(loaded.value, claim, fence, submitId, session, current, now)
          && file.image == (if result.Ok? then result.value else loaded.value)
    {
      result := ReloadFromDisk(now);
      if result.Err? { return; }
      if claim.key !in records || !Steps.MatchesReservation(records[claim.key], claim) { return Err(CliFenced); }
      var r := records[claim.key];
      if r.reservation.phase != SpawnPermitted || r.fence != Some(fence) { return Err(CliFenced); }
      if session.Some? && r.account != session { return Err(AccountChanged); }
      if !current { return Err(CliFenced); }
      r := r.(state := Accepted, submitId := Some(submitId), updatedAt := now);
      r := r.(reservation := NoReservation);
      result := WriteRecord(claim.key, r);
    }

    method CommitSubmissionFailure(claim: Steps.Claim, fence: Option<int>, spawned: bool, code: ErrorCode, now: int)
      returns (result: Result<Journal, Error>)
      modifies this, file
      ensures
        var loaded := Steps.Reload(old(records), old(file.image), now);
        if loaded.Err? then result == loaded && file.image == old(file.image) else
          && result == Steps.CommitFailure(loaded.value, claim, fence, spawned, code, now)
          && file.image == (if result.Ok? then result.value else loaded.value)
    {
      result := ReloadFromDisk(now);
      if result.Err? { return; }
      if claim.key !in records || !Steps.MatchesReservation(records[claim.key], claim) { return Err(CliFenced); }
      var r := records[claim.key];
      if fence.Some? && r.fence != fence { return Err(CliFenced); }
      if spawned {
        r := r.(state := Unknown, errorCode := Some(code), updatedAt := now);
        r := r.(reservation := NoReservation);
        result := WriteRecord(claim.key, r);
      } else {
        result := RemoveRecord(claim.key);
      }
    }

    method CancelTask(key: Id, now: int) returns (result: Result<Journal, Error>)
      modifies this, file
      ensures
        var loaded := Steps.Reload(old(records), old(file.image), now);
        if loaded.Err? then result == loaded && file.image == old(file.image) else
          && result == Steps.CancelTask(loaded.value, key, now)
          && file.image == (if result.Ok? then result.value else loaded.value)
    {
      result := ReloadFromDisk(now);
      if result.Err? { return; }
      if key !in records || records[key].task.None? { return Err(TaskNotFound); }
      var r := records[key];
      if IsTerminal(r.state) || r.state == Pending { return; }
      if r.state == Accepted && r.submitId.Some? { return; }
      r := r.(state := Cancelled, errorCode := Some(LocallyCancelled), updatedAt := now);
      r := Steps.ClearQueueLease(r);
      result := WriteRecord(key, r);
    }

    method DeleteTask(key: Id, now: int) returns (result: Result<Journal, Error>)
      modifies this, file
      ensures
        var loaded := Steps.Reload(old(records), old(file.image), now);
        if loaded.Err? then result == loaded && file.image == old(file.image) else
          && result == Steps.DeleteTask(loaded.value, key, now)
          && file.image == (if result.Ok? then result.value else loaded.value)
    {
      result := ReloadFromDisk(now);
      if result.Err? { return; }
      if key !in records { return Err(TaskNotFound); }
      var r := records[key];
      if r.task.None? || r.state == Deleted || r.hidden {
        if r.state == Deleted || r.hidden { return; }
        return Err(TaskNotFound);
      }
      var removeLocally := Steps.RemovedLocally(r);
      if removeLocally { r := r.(state := Deleted); } else { r := r.(hidden := true); }
      r := r.(updatedAt := now);
      if removeLocally { r := Steps.ClearQueueLease(r); }
      result := WriteRecord(key, r);
    }

    /** `failTask` through `transitionTask`: the record read under the lock is authoritative. */
    method FailTask(key: Id, code: ErrorCode, now: int) returns (result: Result<Journal, Error>)
      modifies this, file
      ensures
        var loaded := Steps.Reload(old(records), old(file.image), now);
        if loaded.Err? then result == loaded && file.image == old(file.image) else
          && result == Steps.FailTask(loaded.value, key, code, now)
          && file.image == (if result.Ok? then result.value else loaded.value)
    {
      result := ReloadFromDisk(now);
      if result.Err? { return; }
      if key !in records || records[key].task.None? { return Err(StateInvalid); }
      var r := records[key];
      if IsTerminal(r.state) { return; }
      r := r.(state := Failed, errorCode := Some(code), updatedAt := now);
      r := Steps.ClearQueueLease(r);
      result := WriteRecord(key, r);
    }

    method PersistCleanupWarning(key: Id, fence: int, now: int) returns (result: Result<Journal, Error>)
      modifies this, file
      ensures
        var loaded := Steps.Reload(old(records), old(file.image), now);
        if loaded.Err? then result == loaded && file.image == old(file.image) else
          && result == Steps.CleanupWarning(loaded.value, key, fence, now)
          && file.image == (if result.Ok? then result.value else loaded.value)
    {
      result := ReloadFromDisk(now);
      if result.Err? { return; }
      if key !in records || records[key].state != Accepted || records[key].fence != Some(fence) { return Err(CliFenced); }
      result := WriteRecord(key, records[key].(errorCode := Some(CleanupFailed), updatedAt := now));
    }

    method FailOwnedQueuedTasks(now: int) returns (result: Result<Journal, Error>)
      modifies this, file
      ensures
        var loaded := Steps.Reload(old(records), old(file.image), now);
        if loaded.Err? then result == loaded && file.image == old(file.image) else
          && result == Steps.Dispose(loaded.value, ownerId, now)
          && file.image == (if result.Ok? then result.value else loaded.value)
    {
      result := ReloadFromDisk(now);
      if result.Err? { return; }
      var changed := FailOwnedQueued(now);
      if changed {
        assert records == Steps.DisposeAll(file.image.records, ownerId, now);
        result := PersistUnlocked();
      }
    }

    /** The loop over the records in memory; tells whether it changed any. */
    method FailOwnedQueued(now: int) returns (changed: bool)
      modifies this`records
      ensures records == Steps.DisposeAll(old(records), ownerId, now)
      ensures changed <==> Steps.AnyOwnedQueued(old(records), ownerId)
    {
      changed := false;
      var todo := records.Keys;
      while todo != {}
        invariant todo <= old(records).Keys == records.Keys
        invariant forall k :: k in todo ==> records[k] == old(records)[k]
        invariant forall k :: k in records && k !in todo ==>
          records[k] == Steps.DisposeRecord(old(records)[k], ownerId, now)
        invariant changed <==> exists k :: k in old(records) && k !in todo && Steps.OwnedQueued(old(records)[k], ownerId)
      {
        var k :| k in todo;
        var r := records[k];
        if Steps.OwnedQueued(r, ownerId) {
          r := r.(state := Failed, errorCode := Some(Interrupted), updatedAt := now);
          r := Steps.ClearQueueLease(r);
          records := records[k := r];
          changed := true;
        }
        todo := todo - {k};
      }
    }
  }
}
