/** Safety of the submission protocol over whole runs: at most one provider process per key,
    conserved slots, increasing tickets, and promises that are never broken. */
module SubmissionSafety {
  import opened Prelude
  import opened TaskContract
  import opened JournalRecord
  import opened Journal
  import opened QueueOrder
  import opened RuntimeSteps
  import opened RecordSteps
  import opened SubmissionProtocol
  import opened HarmlessSteps

  // ---- Attempts --------------------------------------------------------------------------------------

  /** Nobody gains the ability to spawn. */
  ghost predicate Weaker(attempts: map<Id, Attempt>, next: map<Id, Attempt>) {
    && next.Keys == attempts.Keys
    && forall id :: id in attempts ==>
         && next[id].claim == attempts[id].claim
         && next[id].viaRun == attempts[id].viaRun
         && (MaySpawn(next[id]) ==> MaySpawn(attempts[id]))
         && (next[id].stage != Finished ==> attempts[id].stage != Finished)
  }

  lemma WeakerKeeps(j: Journal, attempts: map<Id, Attempt>, next: map<Id, Attempt>)
    requires AttemptInv(j, attempts) && Unique(attempts) && Weaker(attempts, next)
    ensures AttemptInv(j, next) && Unique(next)
  {
  }

  /** A new attempt that has no permission yet. */
  lemma NewAttemptKeeps(j: Journal, attempts: map<Id, Attempt>, id: Id, a: Attempt)
    requires AttemptInv(j, attempts) && Unique(attempts)
    requires id !in attempts && a.claim.reservationId == id && !MaySpawn(a)
    ensures AttemptInv(j, attempts[id := a]) && Unique(attempts[id := a])
  {
  }

  /** The permission to spawn, for an attempt nobody else competes with. */
  lemma PermissionKeeps(j: Journal, attempts: map<Id, Attempt>, id: Id, fence: int)
    requires AttemptInv(j, attempts) && Unique(attempts) && id in attempts
    requires Guarded(j, attempts[id])
    requires forall b :: b in attempts && b != id && MaySpawn(attempts[b]) ==> attempts[b].claim.key != attempts[id].claim.key
    ensures
      var next := attempts[id := attempts[id].(stage := Permitted, fence := fence)];
      AttemptInv(j, next) && Unique(next)
  {
  }

  /** Whoever may spawn for a key whose record is reserved by `c` is the holder of `c`. */
  lemma ReservationExcludes(j: Journal, attempts: map<Id, Attempt>, id: Id, c: Claim, b: Id)
    requires AttemptInv(j, attempts) && b in attempts && b != id && c.reservationId == id
    requires c.key in j.records && MatchesReservation(j.records[c.key], c)
    requires MaySpawn(attempts[b])
    ensures attempts[b].claim.key != c.key
  {
  }

  // ---- Locks -------------------------------------------------------------------------------------------

  /** A step of somebody who does not need the lock, while nobody holds it. */
  lemma UnlockedKeeps(j: Journal, attempts: map<Id, Attempt>, next: map<Id, Attempt>, k: Journal)
    requires LockInv(j, attempts, None)
    requires attempts.Keys <= next.Keys
    requires forall id :: id in next && next[id].viaRun && next[id].stage != Finished ==>
      id in attempts && attempts[id].viaRun && attempts[id].stage != Finished
    ensures LockInv(k, next, None)
  {
  }

  // ---- Steps without a change of slots or keys ----------------------------------------------------------

  lemma HarmlessJournalKeepsInv(w: World, k: Journal, v: World)
    requires Inv(w) && Pointwise(w.journal, k)
    requires v.journal == k && v.maxActive == w.maxActive && v.handed == w.handed
    ensures JournalInv(v.journal, v.maxActive) && TicketInv(v.journal) && Increasing(v.handed, v.journal.nextTicket)
    ensures AttemptInv(k, w.attempts)
  {
    PointwiseKeepsJournal(w.journal, k, w.maxActive);
    PointwiseKeepsTickets(w.journal, k);
    PointwiseKeepsAttempts(w.journal, k, w.attempts);
    IncreasingBound(w.handed, w.journal.nextTicket, k.nextTicket);
  }

  /** The journal after a step that may have failed. */
  lemma EffectIsPointwise(w: World, a: Action)
    requires Inv(w) && Enabled(w, a) && HarmlessStep(a)
    ensures Pointwise(w.journal, Step(w, a).journal)
  {
    if Effect(w, a).Ok? {
      HarmlessStepIsPointwise(w, a);
    } else {
      PointwiseRefl(w.journal);
    }
  }

  /** A harmless journal change by somebody who gains no permission; nobody holds the lock. */
  lemma HarmlessKeepsInv(w: World, v: World)
    requires Inv(w) && w.lock.None? && v.lock.None?
    requires Pointwise(w.journal, v.journal) && Weaker(w.attempts, v.attempts)
    requires v.maxActive == w.maxActive && v.handed == w.handed
    ensures Inv(v)
  {
    HarmlessJournalKeepsInv(w, v.journal, v);
    WeakerKeeps(v.journal, w.attempts, v.attempts);
    UnlockedKeeps(w.journal, w.attempts, v.attempts, v.journal);
  }

  lemma PermissionKeepsLock(
    j: Journal, k: Journal, attempts: map<Id, Attempt>, lock: Option<Id>, id: Id, fence: int)
    requires LockInv(j, attempts, lock) && id in attempts && attempts[id].stage != Finished
    requires lock.Some? ==> lock == Some(id) && attempts[id].claim.key in k.records
                            && OpenIntent(k.records[attempts[id].claim.key])
    ensures LockInv(k, attempts[id := attempts[id].(stage := Permitted, fence := fence)], lock)
  {
  }

  /** A harmless journal change together with one new permission to spawn. */
  lemma PermissionKeepsInv(w: World, v: World, id: Id, fence: int)
    requires Inv(w) && id in w.attempts && v.lock == w.lock && w.attempts[id].stage != Finished
    requires Pointwise(w.journal, v.journal) && Guarded(v.journal, w.attempts[id])
    requires v.attempts == w.attempts[id := w.attempts[id].(stage := Permitted, fence := fence)]
    requires v.maxActive == w.maxActive && v.handed == w.handed
    requires forall b :: b in w.attempts && b != id && MaySpawn(w.attempts[b]) ==>
      w.attempts[b].claim.key != w.attempts[id].claim.key
    requires w.lock.Some? ==> w.lock == Some(id) && OpenIntent(v.journal.records[w.attempts[id].claim.key])
    ensures Inv(v)
  {
    HarmlessJournalKeepsInv(w, v.journal, v);
    PermissionKeeps(v.journal, w.attempts, id, fence);
    PermissionKeepsLock(w.journal, v.journal, w.attempts, w.lock, id, fence);
  }

  lemma FenceKeepsInv(w: World, a: Action)
    requires Inv(w) && Enabled(w, a) && a.DoFence?
    ensures Inv(Step(w, a))
  {
    if Effect(w, a).Ok? {
      var v, c := Step(w, a), w.attempts[a.id].claim;
      FenceIsPointwise(w.journal, c, a.fence, a.session, w.now, a.leaseMs);
      forall b | b in w.attempts && b != a.id && MaySpawn(w.attempts[b]) ensures w.attempts[b].claim.key != c.key {
        ReservationExcludes(w.journal, w.attempts, a.id, c, b);
      }
      PermissionKeepsInv(w, v, a.id, a.fence);
    }
  }

  lemma RunFenceKeepsInv(w: World, a: Action)
    requires Inv(w) && Enabled(w, a) && a.DoRunFence?
    ensures Inv(Step(w, a))
  {
    if Effect(w, a).Ok? {
      RunFenceIsPointwise(w.journal, w.attempts[a.id].claim.key, a.fence, a.session);
      PermissionKeepsInv(w, Step(w, a), a.id, a.fence);
    }
  }

  /** The lock holder ends with a harmless write, or somebody crashes. */
  lemma EndingKeepsInv(w: World, v: World, id: Id)
    requires Inv(w) && id in w.attempts
    requires Pointwise(w.journal, v.journal)
    requires v.attempts == w.attempts[id := w.attempts[id].(stage := Finished)]
    requires v.lock == if w.lock == Some(id) then None else w.lock
    requires v.lock.Some? ==> v.journal == w.journal
    requires v.maxActive == w.maxActive && v.handed == w.handed
    ensures Inv(v)
  {
    hide JournalInv, TicketInv, AttemptInv, Unique, Increasing, Pointwise;
    HarmlessJournalKeepsInv(w, v.journal, v);
    WeakerKeeps(v.journal, w.attempts, v.attempts);
  }

  lemma RunAcceptKeepsInv(w: World, a: Action)
    requires Inv(w) && Enabled(w, a) && a.DoRunAccept?
    ensures Inv(Step(w, a))
  {
    if Effect(w, a).Ok? {
      RunAcceptIsPointwise(w.journal, w.attempts[a.id].claim.key, a.submitId, w.now);
      EndingKeepsInv(w, Step(w, a), a.id);
    }
  }

  lemma CrashKeepsInv(w: World, a: Action)
    requires Inv(w) && Enabled(w, a) && a.DoCrash?
    ensures Inv(Step(w, a))
  {
    PointwiseRefl(w.journal);
    EndingKeepsInv(w, Step(w, a), a.id);
  }

  lemma SpawnKeepsInv(w: World, a: Action)
    requires Inv(w) && Enabled(w, a) && a.DoSpawn?
    ensures Inv(Step(w, a))
  {
    hide JournalInv, ValidJournal, Unique;
    WeakerKeeps(w.journal, w.attempts, Step(w, a).attempts);
  }

  lemma QuietMemory(w: World, a: Action)
    requires Enabled(w, a) && HarmlessStep(a) && w.lock.None?
    requires !a.DoFence? && !a.DoRunFence? && !a.DoRunAccept? && !a.DoCrash? && !a.DoSpawn?
    ensures
      var v := Step(w, a);
      Weaker(w.attempts, v.attempts) && v.lock.None? && v.handed == w.handed && v.maxActive == w.maxActive
  {
    hide Effect;
  }

  lemma QuietKeepsInv(w: World, a: Action)
    requires Inv(w) && Enabled(w, a) && HarmlessStep(a)
    requires !a.DoFence? && !a.DoRunFence? && !a.DoRunAccept? && !a.DoCrash? && !a.DoSpawn?
    ensures Inv(Step(w, a))
  {
    if !a.Tick? {
      EffectIsPointwise(w, a);
      QuietMemory(w, a);
      HarmlessKeepsInv(w, Step(w, a));
    }
  }

  // ---- Steps that add or remove records or take slots -----------------------------------------------------

  /** Adding a record under a free key. */
  lemma InsertKeeps(j: Journal, key: Id, r: Record, ticket: int, maxActive: nat)
    requires JournalInv(j, maxActive) && key !in j.records && Tame(r) && ValidRecord(r)
    requires ValidJournal(Journal(j.records[key := r], ticket))
    requires ReservesSlot(r) ==> |Slots(j)| < maxActive
    ensures JournalInv(Journal(j.records[key := r], ticket), maxActive)
  {
    hide ValidRecord, Tame;
    var k := Journal(j.records[key := r], ticket);
    assert Slots(k) == if ReservesSlot(r) then Slots(j) + {key} else Slots(j);
  }

  lemma InsertKeepsAttempts(j: Journal, key: Id, r: Record, ticket: int, attempts: map<Id, Attempt>)
    requires AttemptInv(j, attempts) && key !in j.records
    ensures AttemptInv(Journal(j.records[key := r], ticket), attempts)
  {
    var k := Journal(j.records[key := r], ticket);
    forall id | id in attempts && MaySpawn(attempts[id]) ensures Guarded(k, attempts[id]) {
      assert attempts[id].claim.key != key;
    }
  }

  lemma InsertKeepsTickets(j: Journal, key: Id, r: Record, ticket: int)
    requires TicketInv(j) && key !in j.records && j.nextTicket <= ticket
    requires r.queueTicket.Some? ==> j.nextTicket <= r.queueTicket.value < ticket
    ensures TicketInv(Journal(j.records[key := r], ticket))
  {
  }

  /** Removing a record nobody may spawn for. */
  lemma RemovalKeeps(j: Journal, key: Id, ticket: int, maxActive: nat, attempts: map<Id, Attempt>)
    requires JournalInv(j, maxActive) && TicketInv(j) && AttemptInv(j, attempts)
    requires ValidJournal(Journal(j.records - {key}, ticket)) && j.nextTicket <= ticket
    requires forall id :: id in attempts && MaySpawn(attempts[id]) ==> attempts[id].claim.key != key
    ensures
      var k := Journal(j.records - {key}, ticket);
      JournalInv(k, maxActive) && TicketInv(k) && AttemptInv(k, attempts)
  {
    var k := Journal(j.records - {key}, ticket);
    assert Slots(k) <= Slots(j);
    SubsetSize(Slots(k), Slots(j));
    forall id | id in attempts && MaySpawn(attempts[id]) ensures Guarded(k, attempts[id]) {
      assert k.records[attempts[id].claim.key] == j.records[attempts[id].claim.key];
    }
  }

  lemma HandedExtend(handed: seq<int>, bound: int, ticket: int)
    requires Increasing(handed, bound) && bound <= ticket
    ensures Increasing(handed + [ticket], ticket + 1)
  {
    assert (handed + [ticket])[..|handed|] == handed;
    IncreasingBound(handed, bound, ticket);
  }

  /** A new record is stored with version 1, that is, as it is. */
  lemma InsertShape(j: Journal, key: Id, r: Record, ticket: int)
    requires key !in j.records && r.version == 1 && Persist(j, Journal(j.records[key := r], ticket)).Ok?
    ensures Persist(j, Journal(j.records[key := r], ticket)).value == Journal(j.records[key := r], ticket)
    ensures ValidJournal(Journal(j.records[key := r], ticket))
  {
    PersistOneInverse(j, key, r, ticket);
    assert r.(version := 1) == r;
  }

  lemma EnqueueAtShape(
    j: Journal, key: Id, hash: Id, task: TaskInfo, ownerId: Id, now: int, leaseMs: nat, t: int)
    requires EnqueueAt(j, key, hash, task, ownerId, now, leaseMs, t).Ok?
    ensures
      var k := Journal(j.records[key := QueuedRecord(hash, task, ownerId, now + leaseMs, t)], t + 1);
      && key !in j.records && ValidJournal(k)
      && EnqueueAt(j, key, hash, task, ownerId, now, leaseMs, t).value == k
  {
    InsertShape(j, key, QueuedRecord(hash, task, ownerId, now + leaseMs, t), t + 1);
  }

  lemma EnqueueShape(j: Journal, key: Id, hash: Id, task: TaskInfo, ownerId: Id, now: int, leaseMs: nat)
    requires EnqueueNew(j, key, hash, task, ownerId, now, leaseMs).Ok?
    ensures
      var t := LoadedTicket(j);
      && key !in j.records
      && EnqueueNew(j, key, hash, task, ownerId, now, leaseMs).value ==
         Journal(j.records[key := QueuedRecord(hash, task, ownerId, now + leaseMs, t)], t + 1)
      && ValidJournal(EnqueueNew(j, key, hash, task, ownerId, now, leaseMs).value)
  {
    EnqueueAtShape(j, key, hash, task, ownerId, now, leaseMs, LoadedTicket(j));
  }

  lemma InsertKeepsInv(w: World, v: World, key: Id, r: Record)
    requires Inv(w) && key !in w.journal.records && Tame(r) && ValidRecord(r)
    requires v.journal == Journal(w.journal.records[key := r], v.journal.nextTicket) && ValidJournal(v.journal)
    requires w.journal.nextTicket <= v.journal.nextTicket
    requires ReservesSlot(r) ==> |Slots(w.journal)| < w.maxActive
    requires r.queueTicket.Some? ==> w.journal.nextTicket <= r.queueTicket.value < v.journal.nextTicket
    requires v.maxActive == w.maxActive && v.attempts == w.attempts
    ensures JournalInv(v.journal, v.maxActive) && TicketInv(v.journal) && AttemptInv(v.journal, v.attempts)
  {
    InsertKeeps(w.journal, key, r, v.journal.nextTicket, w.maxActive);
    InsertKeepsAttempts(w.journal, key, r, v.journal.nextTicket, w.attempts);
    InsertKeepsTickets(w.journal, key, r, v.journal.nextTicket);
  }

  lemma TicketIssueKeepsInv(w: World, v: World, key: Id, r: Record, t: int)
    requires Inv(w) && w.lock.None? && v.lock.None? && key !in w.journal.records
    requires Tame(r) && ValidRecord(r) && !ReservesSlot(r) && r.queueTicket == Some(t) && w.journal.nextTicket <= t
    requires v.journal == Journal(w.journal.records[key := r], t + 1) && ValidJournal(v.journal)
    requires v.maxActive == w.maxActive && v.attempts == w.attempts && v.handed == w.handed + [t]
    ensures Inv(v)
  {
    InsertKeepsInv(w, v, key, r);
    HandedExtend(w.handed, w.journal.nextTicket, t);
    UnlockedKeeps(w.journal, w.attempts, v.attempts, v.journal);
  }

  lemma QueuedRecordIsTame(hash: Id, task: TaskInfo, ownerId: Id, expiresAt: int, t: int)
    ensures
      var r := QueuedRecord(hash, task, ownerId, expiresAt, t);
      Tame(r) && !ReservesSlot(r) && r.queueTicket == Some(t)
  {
  }

  lemma EnqueueStep(w: World, a: Action)
    requires Enabled(w, a) && a.DoEnqueue? && Effect(w, a).Ok?
    ensures
      var t := LoadedTicket(w.journal);
      var r := QueuedRecord(a.requestHash, a.task, a.ownerId, w.now + a.leaseMs, t);
      && a.key !in w.journal.records
      && Step(w, a) == w.(journal := Journal(w.journal.records[a.key := r], t + 1), handed := w.handed + [t])
      && ValidJournal(Step(w, a).journal)
  {
    hide Persist;
    EnqueueShape(w.journal, a.key, a.requestHash, a.task, a.ownerId, w.now, a.leaseMs);
  }

  lemma EnqueueKeepsInv(w: World, a: Action)
    requires Inv(w) && Enabled(w, a) && a.DoEnqueue?
    ensures Inv(Step(w, a))
  {
    if Effect(w, a).Ok? {
      EnqueueStep(w, a);
      var v, t := Step(w, a), LoadedTicket(w.journal);
      var r := QueuedRecord(a.requestHash, a.task, a.ownerId, w.now + a.leaseMs, t);
      QueuedRecordIsTame(a.requestHash, a.task, a.ownerId, w.now + a.leaseMs, t);
      assert v.journal.records[a.key] == r;
      TicketIssueKeepsInv(w, v, a.key, r, t);
    }
  }

  lemma RunBeginShape(j: Journal, key: Id, hash: Id, now: int, maxActive: nat)
    requires RunBegin(j, key, hash, now, maxActive).Ok?
    ensures
      && key !in j.records && |Slots(j)| < maxActive
      && RunBegin(j, key, hash, now, maxActive).value ==
         Journal(j.records[key := IntentRecord(hash, now)], LoadedTicket(j))
      && ValidJournal(RunBegin(j, key, hash, now, maxActive).value)
  {
    InsertShape(j, key, IntentRecord(hash, now), LoadedTicket(j));
  }

  /** A new intent of the older interface, written under the lock its author now holds. */
  lemma IntentKeepsInv(w: World, v: World, id: Id, c: Claim, r: Record)
    requires Inv(w) && w.lock.None? && v.lock == Some(id) && id !in w.attempts && c.reservationId == id
    requires v.attempts == w.attempts[id := Attempt(c, Holding, false, 0, true)]
    requires c.key !in w.journal.records && Tame(r) && ValidRecord(r) && OpenIntent(r) && r.queueTicket.None?
    requires v.journal == Journal(w.journal.records[c.key := r], v.journal.nextTicket) && ValidJournal(v.journal)
    requires w.journal.nextTicket <= v.journal.nextTicket && |Slots(w.journal)| < w.maxActive
    requires v.maxActive == w.maxActive && v.handed == w.handed
    ensures Inv(v)
  {
    InsertKeepsInv(w, v.(attempts := w.attempts), c.key, r);
    IncreasingBound(w.handed, w.journal.nextTicket, v.journal.nextTicket);
    NewAttemptKeeps(v.journal, w.attempts, id, Attempt(c, Holding, false, 0, true));
    forall i | i in w.attempts && MaySpawn(w.attempts[i]) ensures w.attempts[i].claim.key != c.key {
      assert Guarded(w.journal, w.attempts[i]);
    }
  }

  lemma RunBeginKeepsInv(w: World, a: Action)
    requires Inv(w) && Enabled(w, a) && a.DoRunBegin?
    ensures Inv(Step(w, a))
  {
    hide Inv, OpenIntent, WriteBack;
    if Effect(w, a).Ok? {
      var r := IntentRecord(a.requestHash, w.now);
      RunBeginShape(w.journal, a.key, a.requestHash, w.now, w.maxActive);
      assert Step(w, a).journal.records[a.key] == r;
      IntentKeepsInv(w, Step(w, a), a.id, Claim(a.key, a.requestHash, a.id, a.id), r);
    }
  }

  lemma ReserveShape(j: Journal, c: Claim, now: int, leaseMs: nat, maxActive: nat)
    requires ReserveSlot(j, c, now, leaseMs, maxActive).Ok?
    requires ReserveSlot(j, c, now, leaseMs, maxActive) != Ok(j)
    ensures c.key in j.records && j.records[c.key].state == Queued && |Slots(j)| < maxActive
    ensures
      var r := ReservedRecord(j.records[c.key], c, now, leaseMs);
      var k := ReserveSlot(j, c, now, leaseMs, maxActive).value;
      && k == Journal(j.records[c.key := r.(version := NextVersion(j, c.key, r))], LoadedTicket(j))
      && ValidJournal(k)
  {
    PersistOneInverse(j, c.key, ReservedRecord(j.records[c.key], c, now, leaseMs), LoadedTicket(j));
  }

  lemma PromotionKeepsJournal(j: Journal, key: Id, r: Record, ticket: int, maxActive: nat)
    requires JournalInv(j, maxActive) && TicketInv(j) && key in j.records && |Slots(j)| < maxActive
    requires Tame(r) && r.queueTicket.None? && j.nextTicket <= ticket
    requires ValidJournal(Journal(j.records[key := r], ticket))
    ensures
      var k := Journal(j.records[key := r], ticket);
      JournalInv(k, maxActive) && TicketInv(k)
  {
    hide Tame, ValidJournal;
    var k := Journal(j.records[key := r], ticket);
    assert Slots(k) <= Slots(j) + {key};
    SubsetSize(Slots(k), Slots(j) + {key});
  }

  lemma PromotionKeepsAttempts(j: Journal, key: Id, r: Record, ticket: int, attempts: map<Id, Attempt>)
    requires AttemptInv(j, attempts) && key in j.records && j.records[key].state == Queued
    ensures AttemptInv(Journal(j.records[key := r], ticket), attempts)
  {
    var k := Journal(j.records[key := r], ticket);
    forall id | id in attempts && MaySpawn(attempts[id]) ensures Guarded(k, attempts[id]) {
      assert Guarded(j, attempts[id]);
      assert attempts[id].claim.key != key;
    }
  }

  /** A queued record becomes a reserved one: it takes one slot and gives up its ticket. */
  lemma PromotionKeeps(j: Journal, key: Id, r: Record, ticket: int, maxActive: nat, attempts: map<Id, Attempt>)
    requires JournalInv(j, maxActive) && TicketInv(j) && AttemptInv(j, attempts)
    requires key in j.records && j.records[key].state == Queued && |Slots(j)| < maxActive
    requires Tame(r) && r.queueTicket.None? && j.nextTicket <= ticket
    requires ValidJournal(Journal(j.records[key := r], ticket))
    ensures
      var k := Journal(j.records[key := r], ticket);
      JournalInv(k, maxActive) && TicketInv(k) && AttemptInv(k, attempts)
  {
    PromotionKeepsJournal(j, key, r, ticket, maxActive);
    PromotionKeepsAttempts(j, key, r, ticket, attempts);
  }

  lemma PromotionKeepsInv(w: World, v: World, key: Id, r: Record)
    requires Inv(w) && w.lock.None? && v.lock.None?
    requires key in w.journal.records && w.journal.records[key].state == Queued && |Slots(w.journal)| < w.maxActive
    requires Tame(r) && r.queueTicket.None? && w.journal.nextTicket <= v.journal.nextTicket
    requires v.journal == Journal(w.journal.records[key := r], v.journal.nextTicket) && ValidJournal(v.journal)
    requires v.maxActive == w.maxActive && v.handed == w.handed && v.attempts == w.attempts
    ensures Inv(v)
  {
    PromotionKeeps(w.journal, key, r, v.journal.nextTicket, w.maxActive, w.attempts);
    IncreasingBound(w.handed, w.journal.nextTicket, v.journal.nextTicket);
    UnlockedKeeps(w.journal, w.attempts, v.attempts, v.journal);
  }

  lemma NewHolderKeepsInv(w: World, id: Id, a: Attempt)
    requires Inv(w) && w.lock.None? && id !in w.attempts
    requires a.claim.reservationId == id && !MaySpawn(a) && !a.viaRun
    ensures Inv(w.(attempts := w.attempts[id := a]))
  {
    NewAttemptKeeps(w.journal, w.attempts, id, a);
  }

  lemma ReserveStep(w: World, a: Action)
    requires Enabled(w, a) && a.DoReserve?
    ensures
      var v, c := Step(w, a), a.claim;
      && v == World(v.journal, w.now, w.maxActive, v.attempts, w.lock, w.handed)
      && (v.attempts == w.attempts || v.attempts == w.attempts[c.reservationId := Attempt(c, Holding, false, 0, false)])
      && (v.journal == w.journal || (Effect(w, a).Ok? && Effect(w, a) != Ok(w.journal) && v.journal == Effect(w, a).value))
  {
  }

  lemma ReservedRecordIsTame(r: Record, c: Claim, now: int, leaseMs: nat, version: int)
    requires ValidRecord(r) && Tame(r) && r.state == Queued
    ensures
      var q := ReservedRecord(r, c, now, leaseMs).(version := version);
      Tame(q) && q.queueTicket.None?
  {
  }

  /** The write of a promotion, before its author remembers the reservation. */
  lemma ReserveWriteKeepsInv(w: World, c: Claim, leaseMs: nat)
    requires Inv(w) && w.lock.None?
    requires ReserveSlot(w.journal, c, w.now, leaseMs, w.maxActive).Ok?
    requires ReserveSlot(w.journal, c, w.now, leaseMs, w.maxActive) != Ok(w.journal)
    ensures Inv(w.(journal := ReserveSlot(w.journal, c, w.now, leaseMs, w.maxActive).value))
  {
    var j := w.journal;
    ReserveShape(j, c, w.now, leaseMs, w.maxActive);
    var r := ReservedRecord(j.records[c.key], c, w.now, leaseMs);
    ReservedRecordIsTame(j.records[c.key], c, w.now, leaseMs, NextVersion(j, c.key, r));
    PromotionKeepsInv(w, w.(journal := ReserveSlot(j, c, w.now, leaseMs, w.maxActive).value),
                      c.key, r.(version := NextVersion(j, c.key, r)));
  }

  lemma ReserveKeepsInv(w: World, a: Action)
    requires Inv(w) && Enabled(w, a) && a.DoReserve?
    ensures Inv(Step(w, a))
  {
    var v, c := Step(w, a), a.claim;
    var u := w.(journal := v.journal);
    ReserveStep(w, a);
    if v.journal != w.journal {
      ReserveWriteKeepsInv(w, c, a.leaseMs);
    }
    assert Inv(u);
    if v.attempts != w.attempts {
      NewHolderKeepsInv(u, c.reservationId, Attempt(c, Holding, false, 0, false));
    }
  }

  lemma RemovalShape(j: Journal, key: Id)
    requires Persist(j, Journal(j.records - {key}, LoadedTicket(j))).Ok?
    ensures
      var k := Persist(j, Journal(j.records - {key}, LoadedTicket(j))).value;
      k == Journal(j.records - {key}, LoadedTicket(j)) && ValidJournal(k)
  {
    RemovalVersioned(j, key, LoadedTicket(j));
  }

  /** A record nobody may spawn for is given back, by somebody who is done. */
  lemma GivingBackKeepsInv(w: World, v: World, key: Id, ticket: int)
    requires Inv(w) && Weaker(w.attempts, v.attempts) && LockInv(v.journal, v.attempts, v.lock)
    requires v.journal == Journal(w.journal.records - {key}, ticket) && ValidJournal(v.journal)
    requires w.journal.nextTicket <= ticket && v.maxActive == w.maxActive && v.handed == w.handed
    requires forall b :: b in v.attempts && MaySpawn(v.attempts[b]) ==> v.attempts[b].claim.key != key
    ensures Inv(v)
  {
    WeakerKeeps(w.journal, w.attempts, v.attempts);
    RemovalKeeps(w.journal, key, ticket, w.maxActive, v.attempts);
    IncreasingBound(w.handed, w.journal.nextTicket, ticket);
  }

  lemma RunAbandonStep(w: World, a: Action)
    requires Inv(w) && Enabled(w, a) && a.DoRunAbandon? && Effect(w, a).Ok?
    ensures
      var v, key := Step(w, a), w.attempts[a.id].claim.key;
      && v == w.(journal := Journal(w.journal.records - {key}, LoadedTicket(w.journal)), lock := None,
                 attempts := w.attempts[a.id := w.attempts[a.id].(stage := Finished)])
      && ValidJournal(v.journal) && w.lock == Some(a.id)
  {
    RemovalShape(w.journal, w.attempts[a.id].claim.key);
  }

  lemma RunAbandonKeepsInv(w: World, a: Action)
    requires Inv(w) && Enabled(w, a) && a.DoRunAbandon?
    ensures Inv(Step(w, a))
  {
    if Effect(w, a).Ok? {
      RunAbandonStep(w, a);
      HolderGivesBack(w, Step(w, a), a.id, LoadedTicket(w.journal));
    }
  }

  lemma HolderGivesBack(w: World, v: World, id: Id, ticket: int)
    requires Inv(w) && w.lock == Some(id) && id in w.attempts && !w.attempts[id].spawned && w.journal.nextTicket <= ticket
    requires v == w.(journal := Journal(w.journal.records - {w.attempts[id].claim.key}, ticket), lock := None,
                     attempts := w.attempts[id := w.attempts[id].(stage := Finished)])
    requires ValidJournal(v.journal)
    ensures Inv(v)
  {
    hide JournalInv, TicketInv, AttemptInv, Unique, Increasing, ValidJournal;
    GivingBackKeepsInv(w, v, w.attempts[id].claim.key, ticket);
  }

  lemma UnspawnedFailStep(w: World, a: Action)
    requires Enabled(w, a) && a.DoFail? && !w.attempts[a.id].spawned && Effect(w, a).Ok?
    ensures
      var v, c := Step(w, a), w.attempts[a.id].claim;
      && v == w.(journal := Journal(w.journal.records - {c.key}, LoadedTicket(w.journal)),
                 attempts := w.attempts[a.id := w.attempts[a.id].(stage := Finished)])
      && ValidJournal(v.journal) && c.key in w.journal.records && MatchesReservation(w.journal.records[c.key], c)
  {
    RemovalShape(w.journal, w.attempts[a.id].claim.key);
  }

  lemma OwnerGivesBack(w: World, v: World, id: Id, c: Claim, ticket: int)
    requires Inv(w) && w.lock.None? && id in w.attempts && !w.attempts[id].spawned && c == w.attempts[id].claim
    requires c.key in w.journal.records && MatchesReservation(w.journal.records[c.key], c)
    requires v == w.(journal := Journal(w.journal.records - {c.key}, ticket),
                     attempts := w.attempts[id := w.attempts[id].(stage := Finished)])
    requires ValidJournal(v.journal) && w.journal.nextTicket <= ticket
    ensures Inv(v)
  {
    hide JournalInv, TicketInv, Unique, Increasing, ValidJournal;
    forall b | b in v.attempts && MaySpawn(v.attempts[b]) ensures v.attempts[b].claim.key != c.key {
      ReservationExcludes(w.journal, w.attempts, id, c, b);
    }
    UnlockedKeeps(w.journal, w.attempts, v.attempts, v.journal);
    GivingBackKeepsInv(w, v, c.key, ticket);
  }

  lemma UnspawnedFailKeepsInv(w: World, a: Action)
    requires Inv(w) && Enabled(w, a) && a.DoFail? && !w.attempts[a.id].spawned && Effect(w, a).Ok?
    ensures Inv(Step(w, a))
  {
    UnspawnedFailStep(w, a);
    OwnerGivesBack(w, Step(w, a), a.id, w.attempts[a.id].claim, LoadedTicket(w.journal));
  }

  lemma FailIsPointwise(j: Journal, c: Claim, fence: Option<int>, code: ErrorCode, now: int)
    requires ValidJournal(j) && CommitFailure(j, c, fence, true, code, now).Ok?
    ensures Pointwise(j, CommitFailure(j, c, fence, true, code, now).value)
  {
    assert ValidRecord(j.records[c.key]);
    UncertainIsHarmless(j.records[c.key], code, now);
    WriteBackIsPointwise(j, c.key, UncertainRecord(j.records[c.key], code, now));
  }

  lemma SpawnedFailStep(w: World, a: Action)
    requires Inv(w) && Enabled(w, a) && a.DoFail? && (w.attempts[a.id].spawned || Effect(w, a).Err?)
    ensures
      var v := Step(w, a);
      && Pointwise(w.journal, v.journal)
      && v == w.(journal := v.journal, attempts := w.attempts[a.id := w.attempts[a.id].(stage := Finished)])
  {
    if Effect(w, a).Ok? {
      FailIsPointwise(w.journal, w.attempts[a.id].claim, a.known, a.code, w.now);
    } else {
      PointwiseRefl(w.journal);
    }
  }

  /** Somebody who does not hold the lock is done. */
  lemma BowingOutKeepsInv(w: World, v: World, id: Id)
    requires Inv(w) && w.lock.None? && id in w.attempts && Pointwise(w.journal, v.journal)
    requires v == w.(journal := v.journal, attempts := w.attempts[id := w.attempts[id].(stage := Finished)])
    ensures Inv(v)
  {
    HarmlessKeepsInv(w, v);
  }

  lemma SpawnedFailKeepsInv(w: World, a: Action)
    requires Inv(w) && Enabled(w, a) && a.DoFail? && (w.attempts[a.id].spawned || Effect(w, a).Err?)
    ensures Inv(Step(w, a))
  {
    hide Inv, Pointwise;
    SpawnedFailStep(w, a);
    BowingOutKeepsInv(w, Step(w, a), a.id);
  }

  /** The invariant is inductive. */
  lemma StepKeepsInv(w: World, a: Action)
    requires Inv(w)
    ensures Inv(Step(w, a))
  {
    hide Effect, Inv;
    if Enabled(w, a) {
      if a.DoEnqueue? { EnqueueKeepsInv(w, a); }
      else if a.DoReserve? { ReserveKeepsInv(w, a); }
      else if a.DoRunBegin? { RunBeginKeepsInv(w, a); }
      else if a.DoRunAbandon? { RunAbandonKeepsInv(w, a); }
      else if a.DoFail? {
        if w.attempts[a.id].spawned || Effect(w, a).Err? { SpawnedFailKeepsInv(w, a); }
        else { UnspawnedFailKeepsInv(w, a); }
      }
      else if a.DoFence? { FenceKeepsInv(w, a); }
      else if a.DoRunFence? { RunFenceKeepsInv(w, a); }
      else if a.DoRunAccept? { RunAcceptKeepsInv(w, a); }
      else if a.DoCrash? { CrashKeepsInv(w, a); }
      else if a.DoSpawn? { SpawnKeepsInv(w, a); }
      else { QuietKeepsInv(w, a); }
    }
  }

  lemma InitInv(now: int, maxActive: nat)
    ensures Inv(Init(now, maxActive))
  {
    assert Slots(EMPTY_JOURNAL) == {};
  }

  lemma {:induction false} RunKeepsInv(w: World, actions: seq<Action>)
    requires Inv(w)
    ensures Inv(Run(w, actions))
    decreases |actions|
  {
    if actions != [] {
      StepKeepsInv(w, actions[0]);
      RunKeepsInv(Step(w, actions[0]), actions[1..]);
    }
  }

  // ---- Theorems ---------------------------------------------------------------------------------------------

  /** At most one provider process per idempotency key, over every interleaving of processes,
      stalls, lease expiry, recovery and crashes. */
  lemma {:induction false} AtMostOneSpawnPerKey(now: int, maxActive: nat, actions: seq<Action>, a: Id, b: Id)
    requires a in Run(Init(now, maxActive), actions).attempts && b in Run(Init(now, maxActive), actions).attempts
    requires Run(Init(now, maxActive), actions).attempts[a].spawned
    requires Run(Init(now, maxActive), actions).attempts[b].spawned
    requires Run(Init(now, maxActive), actions).attempts[a].claim.key == Run(Init(now, maxActive), actions).attempts[b].claim.key
    ensures a == b
  {
    InitInv(now, maxActive);
    RunKeepsInv(Init(now, maxActive), actions);
  }

  /** No attempt for the key has started the provider process or is free to. */
  ghost predicate Unspawned(w: World, key: Id) {
    forall id :: id in w.attempts && w.attempts[id].claim.key == key ==> !MaySpawn(w.attempts[id])
  }

  /** A key without a record, a queued or merely reserved one, and a record that promises it: in
      all these cases nothing was ever spawned for the key and nobody is about to. */
  lemma {:induction false} UnspawnedKeys(now: int, maxActive: nat, actions: seq<Action>, key: Id)
    requires
      var j := Run(Init(now, maxActive), actions).journal;
      || key !in j.records
      || j.records[key].state == Queued
      || (j.records[key].reservation.Reservation? && j.records[key].reservation.phase == Reserved)
      || NeverSpawned(j.records[key])
    ensures Unspawned(Run(Init(now, maxActive), actions), key)
  {
    hide Run;
    InitInv(now, maxActive);
    RunKeepsInv(Init(now, maxActive), actions);
    var w := Run(Init(now, maxActive), actions);
    assert key in w.journal.records ==> ValidRecord(w.journal.records[key]);
    forall id | id in w.attempts && w.attempts[id].claim.key == key ensures !MaySpawn(w.attempts[id]) {
      assert MaySpawn(w.attempts[id]) ==> Guarded(w.journal, w.attempts[id]);
    }
  }

  /** A promise is never forgotten by a step. */
  lemma PromiseStep(w: World, a: Action, key: Id)
    requires Inv(w) && key in w.journal.records && NeverSpawned(w.journal.records[key])
    ensures key in Step(w, a).journal.records && NeverSpawned(Step(w, a).journal.records[key])
  {
    hide Effect, JournalInv, TicketInv, AttemptInv, LockInv, Unique;
    if Enabled(w, a) && Effect(w, a).Ok? {
      if HarmlessStep(a) {
        HarmlessStepIsPointwise(w, a);
      } else {
        OtherStepKeepsSettled(w, a, key);
      }
    }
  }

  lemma RemovalKeepsSettled(j: Journal, key: Id, other: Id)
    requires Persist(j, Journal(j.records - {key}, LoadedTicket(j))).Ok?
    requires other in j.records && Settled(j.records[other])
    ensures
      var k := Persist(j, Journal(j.records - {key}, LoadedTicket(j))).value;
      other in k.records && k.records[other] == j.records[other]
  {
    RemovalShape(j, key);
    RemovalIsWritable(j, key, LoadedTicket(j));
  }

  lemma FailKeepsSettled(j: Journal, c: Claim, known: Option<int>, spawned: bool, code: ErrorCode, now: int, other: Id)
    requires CommitFailure(j, c, known, spawned, code, now).Ok?
    requires other in j.records && Settled(j.records[other])
    ensures
      var k := CommitFailure(j, c, known, spawned, code, now).value;
      other in k.records && k.records[other] == j.records[other]
  {
    if spawned {
      PersistOneInverse(j, c.key, UncertainRecord(j.records[c.key], code, now), LoadedTicket(j));
    } else {
      RemovalKeepsSettled(j, c.key, other);
    }
  }

  lemma EnqueueKeepsSettled(w: World, a: Action, key: Id)
    requires Enabled(w, a) && a.DoEnqueue? && Effect(w, a).Ok?
    requires key in w.journal.records && Settled(w.journal.records[key])
    ensures key in Effect(w, a).value.records && Effect(w, a).value.records[key] == w.journal.records[key]
  {
    EnqueueShape(w.journal, a.key, a.requestHash, a.task, a.ownerId, w.now, a.leaseMs);
  }

  lemma ReserveKeepsSettled(j: Journal, c: Claim, now: int, leaseMs: nat, maxActive: nat, key: Id)
    requires ReserveSlot(j, c, now, leaseMs, maxActive).Ok? && key in j.records && Settled(j.records[key])
    ensures
      var k := ReserveSlot(j, c, now, leaseMs, maxActive).value;
      key in k.records && k.records[key] == j.records[key]
  {
    if ReserveSlot(j, c, now, leaseMs, maxActive) != Ok(j) { ReserveShape(j, c, now, leaseMs, maxActive); }
  }

  /** Steps that add or remove records, or take slots, leave settled records as they are. */
  lemma OtherStepKeepsSettled(w: World, a: Action, key: Id)
    requires Enabled(w, a) && Effect(w, a).Ok? && !HarmlessStep(a)
    requires key in w.journal.records && Settled(w.journal.records[key])
    ensures key in Effect(w, a).value.records && Effect(w, a).value.records[key] == w.journal.records[key]
  {
    hide EnqueueNew, ReserveSlot, RunBegin, RunAbandon, CommitFailure, Persist, Settled, LoadedTicket;
    var j := w.journal;
    match a
    case DoEnqueue(_, _, _, _, _) => EnqueueKeepsSettled(w, a, key);
    case DoReserve(c, leaseMs) => ReserveKeepsSettled(j, c, w.now, leaseMs, w.maxActive, key);
    case DoRunBegin(_, k, hash) => RunBeginShape(j, k, hash, w.now, w.maxActive);
    case DoRunAbandon(id) => AbandonKeepsSettled(j, w.attempts[id].claim.key, key);
    case DoFail(id, known, code) =>
      FailKeepsSettled(j, w.attempts[id].claim, known, w.attempts[id].spawned, code, w.now, key);
  }

  lemma AbandonKeepsSettled(j: Journal, key: Id, other: Id)
    requires RunAbandon(j, key).Ok? && other in j.records && Settled(j.records[other])
    ensures
      var k := RunAbandon(j, key).value;
      other in k.records && k.records[other] == j.records[other]
  {
    RemovalKeepsSettled(j, key, other);
  }

  lemma {:induction false} PromiseRun(w: World, actions: seq<Action>, key: Id)
    requires Inv(w) && key in w.journal.records && NeverSpawned(w.journal.records[key])
    ensures
      var v := Run(w, actions);
      Inv(v) && key in v.journal.records && NeverSpawned(v.journal.records[key])
    decreases |actions|
  {
    if actions != [] {
      StepKeepsInv(w, actions[0]);
      PromiseStep(w, actions[0], key);
      PromiseRun(Step(w, actions[0]), actions[1..], key);
    }
  }

  /** Once a record says that its submission was interrupted before it began, cancelled or deleted
      before submission, nothing is ever spawned for its key, in any continuation of the run. */
  lemma {:induction false} PromisesAreKept(now: int, maxActive: nat, before: seq<Action>, after: seq<Action>, key: Id)
    requires key in Run(Init(now, maxActive), before).journal.records
    requires NeverSpawned(Run(Init(now, maxActive), before).journal.records[key])
    ensures
      var v := Run(Run(Init(now, maxActive), before), after);
      && key in v.journal.records
      && NeverSpawned(v.journal.records[key])
      && Unspawned(v, key)
  {
    hide Run;
    InitInv(now, maxActive);
    RunKeepsInv(Init(now, maxActive), before);
    PromiseRun(Run(Init(now, maxActive), before), after, key);
    var v := Run(Run(Init(now, maxActive), before), after);
    forall id | id in v.attempts && v.attempts[id].claim.key == key ensures !MaySpawn(v.attempts[id]) {
      assert MaySpawn(v.attempts[id]) ==> Guarded(v.journal, v.attempts[id]);
    }
  }

  /** Official slots are never oversubscribed. */
  lemma {:induction false} SlotsAreConserved(now: int, maxActive: nat, actions: seq<Action>)
    ensures |Slots(Run(Init(now, maxActive), actions).journal)| <= maxActive
  {
    InitInv(now, maxActive);
    RunKeepsInv(Init(now, maxActive), actions);
    RunKeepsLimit(Init(now, maxActive), actions);
  }

  lemma {:induction false} RunKeepsLimit(w: World, actions: seq<Action>)
    ensures Run(w, actions).maxActive == w.maxActive
    decreases |actions|
  {
    if actions != [] {
      RunKeepsLimit(Step(w, actions[0]), actions[1..]);
    }
  }

  lemma {:induction false} IncreasingAt(handed: seq<int>, bound: int, i: nat, k: nat)
    requires Increasing(handed, bound) && i < k < |handed|
    ensures handed[i] < handed[k]
  {
    var front := handed[..|handed| - 1];
    if k < |front| {
      IncreasingAt(front, handed[|handed| - 1], i, k);
    } else {
      IncreasingBelow(front, handed[|handed| - 1], i);
    }
  }

  lemma {:induction false} IncreasingBelow(handed: seq<int>, bound: int, i: nat)
    requires Increasing(handed, bound) && i < |handed|
    ensures handed[i] < bound
  {
    var front := handed[..|handed| - 1];
    if i < |front| {
      IncreasingBelow(front, handed[|handed| - 1], i);
    }
  }

  /** Durable queue tickets are fresh and handed out in strictly increasing order; those still in
      the queue are pairwise different, so the queue order is total. */
  lemma {:induction false} TicketsIncrease(now: int, maxActive: nat, actions: seq<Action>)
    ensures
      var w := Run(Init(now, maxActive), actions);
      && (forall i, k :: 0 <= i < k < |w.handed| ==> w.handed[i] < w.handed[k])
      && (forall k :: 0 <= k < |w.handed| ==> w.handed[k] < w.journal.nextTicket)
      && TicketsDiffer(w.journal)
  {
    InitInv(now, maxActive);
    RunKeepsInv(Init(now, maxActive), actions);
    var w := Run(Init(now, maxActive), actions);
    forall i, k | 0 <= i < k < |w.handed| ensures w.handed[i] < w.handed[k] {
      IncreasingAt(w.handed, w.journal.nextTicket, i, k);
    }
    forall k | 0 <= k < |w.handed| ensures w.handed[k] < w.journal.nextTicket {
      IncreasingBelow(w.handed, w.journal.nextTicket, k);
    }
  }

  /** Nobody is overtaken unfairly: when a task is promoted, every live task queued before it has
      the priority to be promoted at the same instant. */
  lemma {:induction false} PromotionSkipsNobody(now: int, maxActive: nat, actions: seq<Action>, key: Id, earlier: Id)
    requires
      var w := Run(Init(now, maxActive), actions);
      && key in w.journal.records && earlier in w.journal.records
      && HasPriority(w.journal, w.now, key, w.maxActive)
      && LiveQueueLease(w.journal.records[earlier], w.now)
      && Before(w.journal.records, earlier, key)
    ensures
      var w := Run(Init(now, maxActive), actions);
      HasPriority(w.journal, w.now, earlier, w.maxActive)
  {
    InitInv(now, maxActive);
    RunKeepsInv(Init(now, maxActive), actions);
    var w := Run(Init(now, maxActive), actions);
    var j := w.journal;
    forall p | p in Predecessors(j, w.now, earlier) ensures p in Predecessors(j, w.now, key) {
      OrderIsTransitive(j.records, p, earlier, key);
    }
    SubsetSize(Predecessors(j, w.now, earlier), Predecessors(j, w.now, key));
  }

  // ---- Histories of one record ---------------------------------------------------------------------------------

  /** The key has a record in every state of the run. */
  ghost predicate PresentThroughout(w: World, actions: seq<Action>, key: Id)
    decreases |actions|
  {
    key in w.journal.records && (actions == [] || PresentThroughout(Step(w, actions[0]), actions[1..], key))
  }

  /** Between two images of a record the gate would accept the later one: same request, write-once
      receipt, account and outputs, a fence that never falls, and versions that tell images apart. */
  ghost predicate Succeeds(p: Record, q: Record) {
    Progresses(p, q) && p.version <= q.version && (p.version == q.version ==> SameRecord(p, q))
  }

  lemma SucceedsTransitive(p: Record, q: Record, r: Record)
    requires ValidRecord(p) && Tame(p) && Tame(q) && Succeeds(p, q) && Succeeds(q, r)
    ensures Succeeds(p, r)
  {
    ProgressIsTransitive(p, q, r);
  }

  /** A journal left alone or written through the gate keeps the history of every record it keeps. */
  lemma WrittenSucceeds(j: Journal, k: Journal, key: Id)
    requires Written(j, k) && key in j.records && key in k.records
    ensures Succeeds(j.records[key], k.records[key])
  {
    if k == j {
      ProgressIsReflexive(j.records[key]);
    } else {
      var payload :| Persist(j, payload) == Ok(k);
      VersionDoesNotAffectProgress(j.records[key], payload.records[key], NextVersion(j, key, payload.records[key]));
    }
  }

  lemma StepSucceeds(w: World, a: Action, key: Id)
    requires key in w.journal.records && key in Step(w, a).journal.records
    ensures Succeeds(w.journal.records[key], Step(w, a).journal.records[key])
  {
    assert Written(w.journal, Step(w, a).journal);
    WrittenSucceeds(w.journal, Step(w, a).journal, key);
  }

  lemma {:induction false} HistorySucceeds(w: World, actions: seq<Action>, key: Id)
    requires Inv(w) && PresentThroughout(w, actions, key)
    ensures key in Run(w, actions).journal.records
    ensures Succeeds(w.journal.records[key], Run(w, actions).journal.records[key])
    decreases |actions|
  {
    if actions == [] {
      ProgressIsReflexive(w.journal.records[key]);
    } else {
      var v := Step(w, actions[0]);
      StepKeepsInv(w, actions[0]);
      StepSucceeds(w, actions[0], key);
      HistorySucceeds(v, actions[1..], key);
      assert ValidRecord(w.journal.records[key]) && Tame(w.journal.records[key]) && Tame(v.journal.records[key]);
      SucceedsTransitive(w.journal.records[key], v.journal.records[key], Run(w, actions).journal.records[key]);
    }
  }

  lemma StepObservesOn(w: World, a: Action, key: Id)
    requires Inv(w) && key in w.journal.records && key in Step(w, a).journal.records
    ensures ObservesOn(w.journal.records[key], Step(w, a).journal.records[key])
  {
    assert Tame(w.journal.records[key]);
    if Enabled(w, a) && Effect(w, a).Ok? {
      if HarmlessStep(a) {
        EffectIsPointwise(w, a);
      } else if Settled(w.journal.records[key]) {
        OtherStepKeepsSettled(w, a, key);
      }
    }
  }

  lemma {:induction false} HistoryObservesOn(w: World, actions: seq<Action>, key: Id)
    requires Inv(w) && PresentThroughout(w, actions, key)
    ensures key in Run(w, actions).journal.records
    ensures ObservesOn(w.journal.records[key], Run(w, actions).journal.records[key])
    decreases |actions|
  {
    if actions != [] {
      StepKeepsInv(w, actions[0]);
      StepObservesOn(w, actions[0], key);
      HistoryObservesOn(Step(w, actions[0]), actions[1..], key);
    }
  }

  /** As long as a record stays in the journal, every later image of it passes the gate against
      every earlier one: the receipt, the account binding and the outputs are written once, the
      fence never falls, hidden stays hidden, a settled state changes only to deleted. Nor does the
      time of the last observation ever fall. */
  lemma {:induction false} RecordHistory(now: int, maxActive: nat, before: seq<Action>, between: seq<Action>, key: Id)
    requires PresentThroughout(Run(Init(now, maxActive), before), between, key)
    ensures
      var w := Run(Init(now, maxActive), before);
      var v := Run(w, between);
      && key in v.journal.records
      && var p, q := w.journal.records[key], v.journal.records[key];
      && Succeeds(p, q)
      && q.requestHash == p.requestHash && q.task == p.task && (p.hidden ==> q.hidden)
      && StateRank(p.state) <= StateRank(q.state)
      && (p.account.Some? ==>
            && q.account.Some? && q.account.value.binding == p.account.value.binding
            && p.account.value.epoch <= q.account.value.epoch)
      && (p.submitId.Some? ==> q.submitId == p.submitId)
      && (p.outputs.Some? ==> q.outputs == p.outputs)
      && (p.fence.Some? ==> FenceOrZero(q) >= p.fence.value)
      && (IsTerminal(p.state) ==> q.state == p.state || q.state == Deleted)
      && ObservesOn(p, q)
  {
    InitInv(now, maxActive);
    RunKeepsInv(Init(now, maxActive), before);
    var w := Run(Init(now, maxActive), before);
    HistorySucceeds(w, between, key);
    HistoryObservesOn(w, between, key);
    assert Tame(w.journal.records[key]);
  }

  /** In every reachable journal a record that is being polled was submitted, is not cancelled or
      deleted, and has no outputs yet: outputs and a poll lease never meet. */
  lemma {:induction false} PolledRecords(now: int, maxActive: nat, actions: seq<Action>, key: Id)
    requires key in Run(Init(now, maxActive), actions).journal.records
    ensures
      var r := Run(Init(now, maxActive), actions).journal.records[key];
      r.pollLease.Some? ==>
        r.outputs.None? && r.submitId.Some? && (r.state == Accepted || r.state == Succeeded || r.state == Failed)
  {
    InitInv(now, maxActive);
    RunKeepsInv(Init(now, maxActive), actions);
    assert Tame(Run(Init(now, maxActive), actions).journal.records[key]);
  }
}
