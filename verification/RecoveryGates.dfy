/** What it means that a recovery gate has accepted a file over a left-over backup: nothing that
    somebody may rely on has been taken back. */
module RecoveryGates {
  import opened Prelude
  import opened Lists
  import opened TaskContract
  import J = JournalRecord
  import F = Journal
  import A = Arbiter
  import opened TaskStore
  import G = StoreGate

  // ---- The arbiter -------------------------------------------------------------------------------------

  /** The arbiter's gate accepts the same state, or a later one that reissues no ticket and no fence,
      does not return to an earlier session, and names nobody else in the present one. */
  lemma ArbiterGateExactly(p: A.State, c: A.State)
    ensures A.Gate(p, c) <==>
      || c == p
      || (&& p.revision < c.revision && p.nextTicket <= c.nextTicket && p.nextFence <= c.nextFence
          && p.session.epoch <= c.session.epoch
          && (c.session.binding == p.session.binding || p.session.epoch < c.session.epoch))
  {
  }

  // ---- The journal -------------------------------------------------------------------------------------

  /** What the journal's gate keeps of a record besides the version: its request and task, its receipt
      and outputs, its account, and that it was hidden; a fence or a session epoch never falls. */
  lemma GateKeepsSubmission(p: J.Record, q: J.Record)
    requires J.Progresses(p, q)
    ensures q.requestHash == p.requestHash && q.task == p.task && (p.hidden ==> q.hidden)
    ensures p.submitId.Some? ==> q.submitId == p.submitId
    ensures p.outputs.Some? ==> q.outputs == p.outputs
    ensures p.account.Some? ==>
      q.account.Some? && q.account.value.binding == p.account.value.binding && p.account.value.epoch <= q.account.value.epoch
    ensures p.fence.Some? && p.fence.value > 0 ==> q.fence.Some? && p.fence.value <= q.fence.value
  {
  }

  /** While a record waits or is being submitted its holder stays: a queue entry keeps its owner and
      ticket, a reservation its id and owner, neither ends earlier, and a permission to spawn is not
      taken back. */
  lemma GateKeepsHolder(p: J.Record, q: J.Record)
    requires J.Progresses(p, q) && q.state == p.state
    ensures p.state == J.Queued && p.queueLease.Some? ==>
      && q.queueLease.Some? && q.queueLease.value.ownerId == p.queueLease.value.ownerId && q.queueTicket == p.queueTicket
      && p.queueLease.value.expiresAt <= q.queueLease.value.expiresAt
    ensures p.state == J.Pending && p.reservation.Reservation? ==>
      && q.reservation.Reservation? && q.reservation.id == p.reservation.id
      && q.reservation.ownerId == p.reservation.ownerId && p.reservation.expiresAt <= q.reservation.expiresAt
      && (p.reservation.phase == J.SpawnPermitted ==> q.reservation.phase == J.SpawnPermitted)
    ensures p.state == J.Pending && p.reservation.LegacyReservation? ==>
      && q.reservation.LegacyReservation? && q.reservation.id == p.reservation.id
      && p.reservation.expiresAt <= q.reservation.expiresAt
  {
  }

  /** The one way back: an uncertain submission with a receipt may become accepted, or settled
      otherwise, only on an observation of the provider that says so. */
  lemma UncertaintyEndsByObservation(p: J.Record, q: J.Record)
    requires J.Progresses(p, q) && p.state == J.Unknown && q.state != J.Unknown && q.state != J.Deleted
    ensures p.submitId.Some? && q.submitId == p.submitId && q.lastObservedAt.Some?
    ensures
      && (q.state == J.Succeeded ==> q.officialStatus == Some(StatusCompleted))
      && (q.state == J.Failed ==> q.officialStatus == Some(StatusFailed))
      && (q.state == J.Cancelled ==> q.officialStatus == Some(StatusCancelled))
      && (q.state == J.Accepted ==>
            q.officialStatus == Some(StatusPending) || q.officialStatus == Some(StatusProcessing))
      && q.state != J.Queued && q.state != J.Pending
  {
  }

  /** No record of the backup may be missing, none may be older, and the same version is the same
      record; tickets are not reissued. */
  lemma JournalGateKeepsRecords(p: F.Journal, c: F.Journal, key: Id)
    requires F.Gate(p, c) && key in p.records
    ensures p.nextTicket <= c.nextTicket && key in c.records
    ensures
      var r, q := p.records[key], c.records[key];
      && r.version <= q.version && J.StateRank(r.state) <= J.StateRank(q.state) + (if r.state == J.Unknown then 1 else 0)
      && (q.version == r.version ==> q == r)
  {
  }

  // ---- The store ---------------------------------------------------------------------------------------

  /** A task that was not deleted is still there: the same request, not older in either version, still
      bound to its account, and not brought back from a deletion. */
  lemma StoreGateKeepsTasks(p: Disk, c: Disk, t: StoredTask)
    requires G.Gate(p, c) && t in p.tasks && t.visibility != DeletedTask
    ensures exists u ::
      && u in c.tasks && u.taskId == t.taskId
      && u.requestHash == t.requestHash && u.clientOperationId == t.clientOperationId && u.recordId == t.recordId
      && t.version <= u.version && t.journalVersion <= u.journalVersion
      && (t.account.Some? ==> u.account == t.account)
      && (u.version == t.version ==> u == t)
      && (t.visibility == HiddenTask ==> u.visibility == HiddenTask || u.visibility == DeletedTask)
  {
    if c != p {
      var q := FindTask(c.tasks, t.taskId).value;
      assert G.TaskProgresses(t, q);
    }
  }

  /** A completed product effect is still completed, with its result, unless its task was deleted; a
      pending delivery is still there for somebody, under no lower fence, and under the same fence for
      the same holder, not shortened. */
  lemma StoreGateKeepsDeliveries(p: Disk, c: Disk, i: Item)
    requires G.Gate(p, c) && i in p.inbox && Unique(p.inbox, SlotOf) && !IsDeleted(p.tasks, i.taskId)
    ensures i.delivery.Completed? && G.KnownProductEffect(p.outbox, i.key) ==> i in c.inbox
    ensures i.delivery.Leased? ==>
      exists j ::
        && j in c.inbox && SlotOf(j) == SlotOf(i) && j.taskId == i.taskId && i.fence <= j.fence
        && (j.delivery.Leased? && j.fence == i.fence ==>
              j.delivery.token == i.delivery.token && i.delivery.expiresAt <= j.delivery.expiresAt)
  {
    if c != p {
      var j := FindItem(c.inbox, SlotOf(i));
      assert j.Some? ==> G.ItemProgresses(i, j.value);
    }
  }

  /** An effect that was not delivered is still there, and as it was, unless it is a product effect or
      its task was deleted. */
  lemma StoreGateKeepsEffects(p: Disk, c: Disk, e: Effect)
    requires G.Gate(p, c) && e in p.outbox && e.kind != ProductEffect && !IsDeleted(p.tasks, e.taskId)
    requires exists i :: i in p.inbox && i.key == e.key && !i.delivery.Completed?
    ensures e in c.outbox
  {
    if c != p {
      var f := FindEffect(c.outbox, e.key);
      assert f == Some(e) || (f.None? && G.EffectExplained(p, e));
    }
  }
}
