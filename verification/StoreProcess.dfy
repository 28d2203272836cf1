/** The product store as the process runs it: an image read from disk is changed in place,
    compacted by loops, and written back. Every method is proved against the functions of
    `TaskStore`. */
module StoreProcess {
  import opened Prelude
  import opened Lists
  import opened TaskContract
  import Spec = TaskStore
  import opened TaskStore

  /** A disk image in memory. */
  class Working {
    var revision: int
    var tasks: seq<StoredTask>
    var outbox: seq<Effect>
    var inbox: seq<Item>

    function Image(): Disk
      reads this
    {
      Disk(revision, tasks, outbox, inbox)
    }

    constructor (d: Disk)
      ensures Image() == d
    {
      revision, tasks, outbox, inbox := d.revision, d.tasks, d.outbox, d.inbox;
    }

    /** Deleted tasks without pending deliveries go first, the oldest change first. */
    method CompactTasks(cap: Capacity)
      modifies this
      ensures Image() == Spec.CompactTasks(old(Image()), OldestDeleted(old(tasks)), cap)
    {
      hide Filter, OldestDeleted;
      if |tasks| > cap.maxTasks {
        var deleted := OldestDeleted(tasks);
        var k := 0;
        while k < |deleted|
          invariant 0 <= k <= |deleted|
          invariant Spec.CompactTasks(Image(), deleted[k..], cap) == Spec.CompactTasks(old(Image()), deleted, cap)
        {
          if |tasks| <= cap.maxTasks { break; }
          var id := deleted[k].taskId;
          assert deleted[k..][0] == deleted[k] && deleted[k..][1..] == deleted[k + 1..];
          if !AwaitsDelivery(inbox, id) {
            tasks := Filter(tasks, (t: StoredTask) => t.taskId != id);
            outbox := Filter(outbox, (e: Effect) => e.taskId != id);
            inbox := Filter(inbox, (i: Item) => i.taskId != id);
          }
          k := k + 1;
        }
        assert deleted[|deleted|..] == [];
      }
    }

    method CompactOutbox(cap: Capacity)
      modifies this`outbox, this`inbox
      ensures Image() == Spec.CompactOutbox(old(Image()), cap)
    {
      while |outbox| > cap.maxEffects
        invariant Spec.CompactOutbox(Image(), cap) == Spec.CompactOutbox(old(Image()), cap)
        decreases |outbox|
      {
        var candidate := OutboxCandidate(outbox, inbox);
        if candidate.None? { break; }
        outbox := WithoutEffect(outbox, candidate.value.key);
        if candidate.value.kind != ProductEffect {
          inbox := WithoutDeliveries(inbox, candidate.value.key);
        }
      }
    }

    method CompactInbox(cap: Capacity)
      modifies this`outbox, this`inbox
      ensures Image() == Spec.CompactInbox(old(Image()), cap)
    {
      while |inbox| > cap.maxEffects
        invariant Spec.CompactInbox(Image(), cap) == Spec.CompactInbox(old(Image()), cap)
        decreases |inbox|
      {
        var candidate := InboxCandidate(Image());
        if candidate.None? { break; }
        inbox := WithoutItem(inbox, candidate.value);
        outbox := WithoutEffect(outbox, candidate.value.key);
      }
    }

    /** Tells whether the store now fits. */
    method CompactStore(cap: Capacity) returns (fits: bool)
      modifies this
      ensures Image() == Compact(old(Image()), cap)
      ensures fits <==> Fits(Image(), cap)
    {
      CompactTasks(cap);
      CompactOutbox(cap);
      CompactInbox(cap);
      CompactOutbox(cap);
      fits := |tasks| <= cap.maxTasks && |outbox| <= cap.maxEffects && |inbox| <= cap.maxEffects;
    }

    /** Counts the revision and sorts. */
    method Seal()
      modifies this
      ensures Image() == old(Disk(revision + 1, SortTasks(tasks), outbox, SortInbox(inbox)))
    {
      revision := revision + 1;
      tasks := SortTasks(tasks);
      inbox := SortInbox(inbox);
    }
  }

  /** The store file and the operations on it. */
  class StoreFile {
    var image: Disk
    const cap: Capacity

    constructor (cap: Capacity)
      ensures image == EMPTY_DISK && this.cap == cap
    {
      image := EMPTY_DISK;
      this.cap := cap;
    }

    method Persist(disk: Working, reply: StoreReply) returns (result: Result<StoreReply, StoreError>)
      modifies this, disk
      ensures StoreOutcome(image, result) == Save(old(image), old(disk.Image()), cap, reply)
    {
      var fits := disk.CompactStore(cap);
      if !fits { return Err(StoreInvalid); }
      disk.Seal();
      image := disk.Image();
      return Ok(reply);
    }

    method PersistTask(disk: Working, task: StoredTask, e: Effect) returns (result: Result<StoreReply, StoreError>)
      requires disk.Image() == image
      modifies this, disk
      ensures StoreOutcome(image, result) == SaveTask(old(image), cap, task, e)
    {
      if !ValidStoredTask(task) || HasEffect(disk.outbox, e.key) { return Err(StoreInvalid); }
      disk.tasks := PutInto(disk.tasks, task);
      disk.outbox := disk.outbox + [e];
      result := Persist(disk, Stored(task));
    }

    method CompareAndSwapTask(taskId: Id, expected: int, input: StoredTask, effect: EffectInput, now: int)
      returns (result: Result<StoreReply, StoreError>)
      modifies this
      ensures StoreOutcome(image, result) == CompareAndSwap(old(image), cap, taskId, expected, input, effect, now)
    {
      hide SaveTask, ProjectionAllowed, ValidStoredTask;
      if !(0 <= expected <= MAX_SAFE_INTEGER) { return Err(StoreInvalid); }
      var disk := new Working(image);
      var current := FindTask(disk.tasks, taskId);
      var version := if current.Some? then current.value.version else 0;
      if version != expected { return Err(VersionConflict); }
      var task := input.(taskId := taskId, version := version + 1);
      if current.Some? && !ProjectionAllowed(current.value, task) { return Err(StoreInvalid); }
      var e := Effect(effect.key, TaskProjected, effect.taskId, effect.journalVersion, task.version, now);
      if e.taskId != task.taskId || !ValidEffect(e) || e.journalVersion != Some(task.journalVersion) {
        return Err(StoreInvalid);
      }
      result := PersistTask(disk, task, e);
    }

    method MutateTask(taskId: Id, expected: int, m: ProductMutation, key: EffectKey, now: int)
      returns (result: Result<StoreReply, StoreError>)
      modifies this
      ensures StoreOutcome(image, result) == Spec.MutateTask(old(image), cap, taskId, expected, m, key, now)
    {
      if !(0 <= expected <= MAX_SAFE_INTEGER) { return Err(StoreInvalid); }
      var disk := new Working(image);
      var current := FindTask(disk.tasks, taskId);
      if current.None? || current.value.version != expected { return Err(VersionConflict); }
      if !ParsableMutation(m) { return Err(StoreInvalid); }
      var task := Mutated(current.value, m);
      if task.Err? { return Err(task.error); }
      result := PersistTask(disk, task.value, Effect(key, TaskMutated, taskId, None, task.value.version, now));
    }

    method PersistClaim(disk: Working, claimed: Item, known: bool) returns (result: Result<StoreReply, StoreError>)
      requires claimed.delivery.Leased?
      requires disk.Image() == Disk(image.revision, image.tasks, disk.outbox, image.inbox)
      modifies this, disk
      ensures StoreOutcome(image, result) == SaveClaim(old(image), cap, old(disk.outbox), claimed, known)
    {
      disk.inbox := PutItem(disk.inbox, claimed, known);
      result := Persist(disk, LeaseGranted(claimed.delivery.token, claimed.delivery.expiresAt, claimed.fence));
    }

    method ClaimOutboxEffect(consumer: Id, key: EffectKey, token: Id, now: int, leaseMs: int)
      returns (result: Result<StoreReply, StoreError>)
      modifies this
      ensures StoreOutcome(image, result) == ClaimOutbox(old(image), cap, consumer, key, token, now, leaseMs)
    {
      if !ValidLease(leaseMs) { return Err(StoreInvalid); }
      var disk := new Working(image);
      var effect, item := FindEffect(disk.outbox, key), FindItem(disk.inbox, Slot(consumer, key));
      var answer := AnswerDeliveryClaim(effect, item, now);
      if answer.Some? { return answer.value; }
      var claimed := NewClaim(consumer, effect.value.taskId, key, item, token, now + leaseMs);
      result := PersistClaim(disk, claimed, item.Some?);
    }

    /** The early returns of a claim on a projected effect. */
    method AnswerDeliveryClaim(effect: Option<Effect>, item: Option<Item>, now: int)
      returns (answer: Option<Result<StoreReply, StoreError>>)
      ensures answer == DeliveryClaimAnswer(effect, item, now)
    {
      if effect.None? { return Some(Ok(Undefined)); }
      if item.Some? && item.value.taskId != effect.value.taskId { return Some(Err(StoreInvalid)); }
      if item.Some? && item.value.delivery.Completed? { return Some(Ok(Undefined)); }
      if item.Some? && item.value.delivery.Leased? && item.value.delivery.expiresAt > now { return Some(Ok(Undefined)); }
      return None;
    }

    method ClaimProductEffect(consumer: Id, taskId: Id, key: EffectKey, token: Id, now: int, leaseMs: int)
      returns (result: Result<StoreReply, StoreError>)
      modifies this
      ensures StoreOutcome(image, result) == ClaimProduct(old(image), cap, consumer, taskId, key, token, now, leaseMs)
    {
      if !ValidLease(leaseMs) { return Err(StoreInvalid); }
      var disk := new Working(image);
      var task, item := FindTask(disk.tasks, taskId), FindItem(disk.inbox, Slot(consumer, key));
      var effect := FindEffect(disk.outbox, key);
      var answer := AnswerProductClaim(task, effect, item, taskId, now);
      if answer.Some? { return answer.value; }
      if effect.None? {
        disk.outbox := disk.outbox + [Effect(key, ProductEffect, taskId, None, task.value.version, now)];
      }
      result := PersistClaim(disk, NewClaim(consumer, taskId, key, item, token, now + leaseMs), item.Some?);
    }

    /** The early returns of a claim on a product effect. */
    method AnswerProductClaim(
      task: Option<StoredTask>, effect: Option<Effect>, item: Option<Item>, taskId: Id, now: int)
      returns (answer: Option<Result<StoreReply, StoreError>>)
      ensures answer == ProductClaimAnswer(task, effect, item, taskId, now)
    {
      if task.None? || task.value.visibility == DeletedTask { return Some(Err(StoreInvalid)); }
      if item.Some? && item.value.taskId != taskId { return Some(Err(StoreInvalid)); }
      if item.Some? && item.value.delivery.Completed? {
        var done := item.value.delivery.result;
        return Some(Ok(AlreadyCompleted(if done.Some? then done.value else EffectResult(None))));
      }
      if item.Some? && item.value.delivery.Leased? && item.value.delivery.expiresAt > now {
        return Some(Ok(BusyUntil(item.value.delivery.expiresAt)));
      }
      if effect.Some? && (effect.value.kind != ProductEffect || effect.value.taskId != taskId) {
        return Some(Err(StoreInvalid));
      }
      return None;
    }

    method PersistDelivery(disk: Working, item: Item, delivery: Delivery, reply: StoreReply)
      returns (result: Result<StoreReply, StoreError>)
      requires disk.Image() == image
      modifies this, disk
      ensures StoreOutcome(image, result) == Deliver(old(image), cap, item, delivery, reply)
    {
      disk.inbox := Put(disk.inbox, SlotOf, item.(delivery := delivery));
      result := Persist(disk, reply);
    }

    method RenewProductEffect(
      consumer: Id, taskId: Id, key: EffectKey, token: Id, fence: int, now: int, leaseMs: int)
      returns (result: Result<StoreReply, StoreError>)
      modifies this
      ensures StoreOutcome(image, result) == RenewEffect(old(image), cap, consumer, taskId, key, token, fence, now, leaseMs)
    {
      if !(1 <= fence <= MAX_SAFE_INTEGER) || !ValidLease(leaseMs) { return Err(StoreInvalid); }
      var disk := new Working(image);
      var item := FindItem(disk.inbox, Slot(consumer, key));
      if !Presents(item, taskId, token, fence, now) { return Ok(Undefined); }
      result := PersistDelivery(disk, item.value, Leased(token, now + leaseMs), LeaseRenewed(now + leaseMs));
    }

    /** Completes with a result, or releases without one. */
    method FinishProductEffect(
      consumer: Id, taskId: Id, key: EffectKey, token: Id, fence: int, end: Option<EffectResult>, now: int)
      returns (result: Result<StoreReply, StoreError>)
      modifies this
      ensures StoreOutcome(image, result) == FinishEffect(old(image), cap, consumer, taskId, key, token, fence, end, now)
    {
      if !(1 <= fence <= MAX_SAFE_INTEGER) { return Err(StoreInvalid); }
      var disk := new Working(image);
      var item := FindItem(disk.inbox, Slot(consumer, key));
      if !Presents(item, taskId, token, fence, now) { return Ok(Undefined); }
      var delivery := Released(now);
      if end.Some? { delivery := Completed(now, end); }
      result := PersistDelivery(disk, item.value, delivery, Finished);
    }

    method CompleteOutboxEffect(consumer: Id, key: EffectKey, token: Id, now: int)
      returns (result: Result<StoreReply, StoreError>)
      modifies this
      ensures StoreOutcome(image, result) == CompleteOutbox(old(image), cap, consumer, key, token, now)
    {
      var disk := new Working(image);
      var item := FindItem(disk.inbox, Slot(consumer, key));
      if item.None? || !item.value.delivery.Leased? || item.value.delivery.token != token { return Ok(Undefined); }
      if item.value.delivery.expiresAt <= now { return Ok(Undefined); }
      result := PersistDelivery(disk, item.value, Completed(now, None), Finished);
    }
  }
}
