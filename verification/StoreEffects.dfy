/** What each operation of the product store leaves on disk, entry by entry: whose lease a delivery
    carries, that a completion is recorded, and which task was written. */
module StoreEffects {
  import opened Prelude
  import opened Lists
  import opened TaskContract
  import opened TaskStore
  import opened StoreGate
  import opened StoreSteps

  // ---- Deliveries ------------------------------------------------------------------------------------

  /** `w` is the next image after `d`: `next` is what its slot holds, and every other delivery, every
      task and every effect is as it was. */
  ghost predicate OnlyChanged(d: Disk, w: Disk, next: Item) {
    && w.revision == d.revision + 1
    && next in w.inbox
    && (forall i :: i in w.inbox && SlotOf(i) == SlotOf(next) ==> i == next)
    && (forall i :: SlotOf(i) != SlotOf(next) ==> (i in w.inbox <==> i in d.inbox))
    && (forall t :: t in w.tasks <==> t in d.tasks)
    && w.outbox == d.outbox
  }

  /** The lease of the delivery, as its holder presents it, is on disk and has not expired. */
  ghost predicate HeldLease(d: Disk, consumer: Id, taskId: Id, key: EffectKey, fence: int, token: Id, now: int) {
    exists e :: e > now && Item(consumer, taskId, key, fence, Leased(token, e)) in d.inbox
  }

  lemma PresentsIsHeld(d: Disk, consumer: Id, taskId: Id, key: EffectKey, fence: int, token: Id, now: int)
    requires Unique(d.inbox, SlotOf)
    ensures Presents(FindItem(d.inbox, Slot(consumer, key)), taskId, token, fence, now) <==>
              HeldLease(d, consumer, taskId, key, fence, token, now)
  {
    var item := FindItem(d.inbox, Slot(consumer, key));
    if Presents(item, taskId, token, fence, now) {
      assert item.value == Item(consumer, taskId, key, fence, Leased(token, item.value.delivery.expiresAt));
    }
    if HeldLease(d, consumer, taskId, key, fence, token, now) {
      var e :| e > now && Item(consumer, taskId, key, fence, Leased(token, e)) in d.inbox;
      FindsItem(d.inbox, Item(consumer, taskId, key, fence, Leased(token, e)));
    }
  }

  lemma DeliveryIsStored(d: Disk, cap: Capacity, item: Item, next: Delivery, reply: StoreReply)
    requires Good(d, cap) && Room(d) && item in d.inbox && (next.Released? ==> IsProductKey(item.key))
    ensures Deliver(d, cap, item, next, reply).reply == Ok(reply)
    ensures OnlyChanged(d, Deliver(d, cap, item, next, reply).disk, item.(delivery := next))
  {
    hide Good, Room, Deliver, Put;
    var o, after := Deliver(d, cap, item, next, reply), item.(delivery := next);
    DeliveryIsWritten(d, cap, item, next, reply);
    DeliverShape(d, cap, item, next, reply);
    PutChangesOne(d.inbox, o.disk.inbox, item, after);
  }

  lemma DeliveryIsWritten(d: Disk, cap: Capacity, item: Item, next: Delivery, reply: StoreReply)
    requires Good(d, cap)
    ensures Deliver(d, cap, item, next, reply).reply == Ok(reply)
  {
    FittingIsLeftAlone(Disk(d.revision, d.tasks, d.outbox, Put(d.inbox, SlotOf, item.(delivery := next))), cap);
  }

  lemma {:induction false} PutChangesOne(inbox: seq<Item>, w: seq<Item>, item: Item, next: Item)
    requires item in inbox && SlotOf(next) == SlotOf(item)
    requires forall i :: i in w <==> i in Put(inbox, SlotOf, next)
    ensures next in w
    ensures forall i :: i in w && SlotOf(i) == SlotOf(next) ==> i == next
    ensures forall i :: SlotOf(i) != SlotOf(next) ==> (i in w <==> i in inbox)
  {
  }

  /** A completion or a release is answered `Finished` exactly when its caller holds the lease. In
      that case the disk says so: the slot holds the completion with its result, or the release, and
      nothing else has changed. Otherwise nothing has. */
  lemma FinishIsStored(
    d: Disk, cap: Capacity, consumer: Id, taskId: Id, key: EffectKey, token: Id, fence: int, end: Option<EffectResult>, now: int)
    requires Good(d, cap) && Room(d) && (end.None? ==> IsProductKey(key)) && 1 <= fence <= MAX_SAFE_INTEGER
    ensures
      var o := FinishEffect(d, cap, consumer, taskId, key, token, fence, end, now);
      if HeldLease(d, consumer, taskId, key, fence, token, now) then
        && o.reply == Ok(Finished)
        && OnlyChanged(d, o.disk, Item(consumer, taskId, key, fence, if end.Some? then Completed(now, end) else Released(now)))
      else o == StoreOutcome(d, Ok(Undefined))
  {
    hide Deliver, HeldLease, Room, OnlyChanged;
    PresentsIsHeld(d, consumer, taskId, key, fence, token, now);
    if Presents(FindItem(d.inbox, Slot(consumer, key)), taskId, token, fence, now) {
      var i := FindItem(d.inbox, Slot(consumer, key)).value;
      DeliveryIsStored(d, cap, i, if end.Some? then Completed(now, end) else Released(now), Finished);
    }
  }

  /** The same for the delivery of an ordinary effect, which its token alone identifies. */
  lemma OutboxCompletionIsStored(d: Disk, cap: Capacity, consumer: Id, key: EffectKey, token: Id, now: int, i: Item)
    requires Good(d, cap) && Room(d) && i in d.inbox && SlotOf(i) == Slot(consumer, key)
    ensures
      var o := CompleteOutbox(d, cap, consumer, key, token, now);
      if i.delivery.Leased? && i.delivery.token == token && i.delivery.expiresAt > now then
        o.reply == Ok(Finished) && OnlyChanged(d, o.disk, Item(consumer, i.taskId, key, i.fence, Completed(now, None)))
      else o == StoreOutcome(d, Ok(Undefined))
  {
    hide Deliver, Room, OnlyChanged;
    FindsItem(d.inbox, i);
    DeliveryIsStored(d, cap, i, Completed(now, None), Finished);
  }

  /** A renewal gives its holder a full new term, under the same token and fence. */
  lemma RenewalIsStored(
    d: Disk, cap: Capacity, consumer: Id, taskId: Id, key: EffectKey, token: Id, fence: int, now: int, leaseMs: int)
    requires Good(d, cap) && Room(d) && 1 <= fence <= MAX_SAFE_INTEGER && ValidLease(leaseMs)
    ensures
      var o := RenewEffect(d, cap, consumer, taskId, key, token, fence, now, leaseMs);
      if HeldLease(d, consumer, taskId, key, fence, token, now) then
        && o.reply == Ok(LeaseRenewed(now + leaseMs))
        && OnlyChanged(d, o.disk, Item(consumer, taskId, key, fence, Leased(token, now + leaseMs)))
      else o == StoreOutcome(d, Ok(Undefined))
  {
    hide Deliver, HeldLease, Room, OnlyChanged;
    PresentsIsHeld(d, consumer, taskId, key, fence, token, now);
    if Presents(FindItem(d.inbox, Slot(consumer, key)), taskId, token, fence, now) {
      var i := FindItem(d.inbox, Slot(consumer, key)).value;
      DeliveryIsStored(d, cap, i, Leased(token, now + leaseMs), LeaseRenewed(now + leaseMs));
    }
  }

  // ---- Claims ----------------------------------------------------------------------------------------------

  /** The slot can be had: nobody has claimed it yet, its delivery was given back, or its lease ran
      out. */
  predicate Claimable(item: Option<Item>, now: int) {
    || item.None?
    || item.value.delivery.Released?
    || (item.value.delivery.Leased? && item.value.delivery.expiresAt <= now)
  }

  /** Compaction after a claim drops at most one effect when the inbox does not grow over its limit. */
  lemma ClaimFits(m: Disk, cap: Capacity)
    requires |m.tasks| <= cap.maxTasks && |m.inbox| <= cap.maxEffects
    requires |m.outbox| <= cap.maxEffects || (|m.outbox| == cap.maxEffects + 1 && OutboxCandidate(m.outbox, m.inbox).Some?)
    ensures Fits(Compact(m, cap), cap) && Compact(m, cap).tasks == m.tasks
  {
    if |m.outbox| > cap.maxEffects {
      var e := OutboxCandidate(m.outbox, m.inbox).value;
      assert HasEffect(m.outbox, e.key);
      OneOutboxDrop(m, cap, e);
    } else {
      FittingIsLeftAlone(m, cap);
    }
  }

  lemma OneOutboxDrop(m: Disk, cap: Capacity, e: Effect)
    requires |m.tasks| <= cap.maxTasks && |m.inbox| <= cap.maxEffects && |m.outbox| == cap.maxEffects + 1
    requires OutboxCandidate(m.outbox, m.inbox) == Some(e) && HasEffect(m.outbox, e.key)
    ensures Compact(m, cap) == DropEffect(m, e) && Fits(DropEffect(m, e), cap)
  {
    assert CompactOutbox(m, cap) == DropEffect(m, e);
  }

  /** A product claim on a live task is granted to the first caller and whenever the slot can be had
      again, with the next fence and a full term; otherwise it is answered with the result, or with
      the time at which the slot may be free. */
  lemma ProductClaimExactly(
    d: Disk, cap: Capacity, consumer: Id, taskId: Id, key: EffectKey, token: Id, now: int, leaseMs: int)
    requires Good(d, cap) && OwnKey(d.inbox, taskId, key) && ValidLease(leaseMs)
    requires HasTask(d.tasks, taskId) && !IsDeleted(d.tasks, taskId)
    requires forall e :: e in d.outbox && e.key == key ==> e.taskId == taskId
    requires FindItem(d.inbox, Slot(consumer, key)).Some? || |d.inbox| < cap.maxEffects
    ensures
      var o, item := ClaimProduct(d, cap, consumer, taskId, key, token, now, leaseMs), FindItem(d.inbox, Slot(consumer, key));
      if Claimable(item, now) then
        o.reply == Ok(LeaseGranted(token, now + leaseMs, if item.Some? then item.value.fence + 1 else 1))
      else if item.value.delivery.Leased? then
        o == StoreOutcome(d, Ok(BusyUntil(item.value.delivery.expiresAt)))
      else
        o == StoreOutcome(d, Ok(AlreadyCompleted(
          if item.value.delivery.result.Some? then item.value.delivery.result.value else EffectResult(None))))
  {
    hide Written, FindItem, FindEffect, FindTask, WithProductEffect, PutItem;
    var task, effect, item := FindTask(d.tasks, taskId), FindEffect(d.outbox, key), FindItem(d.inbox, Slot(consumer, key));
    LiveTaskIsFound(d, taskId);
    if Claimable(item, now) {
      assert ProductClaimAnswer(task, effect, item, taskId, now).None?;
      ProductClaimIsSaved(d, cap, consumer, taskId, key, token, now, leaseMs);
    }
  }

  lemma LiveTaskIsFound(d: Disk, taskId: Id)
    requires HasTask(d.tasks, taskId) && !IsDeleted(d.tasks, taskId)
    ensures FindTask(d.tasks, taskId).Some? && FindTask(d.tasks, taskId).value.visibility != DeletedTask
  {
  }

  lemma ProductEffectMayBeDropped(
    outbox: seq<Effect>, inbox: seq<Item>, cap: Capacity, key: EffectKey, taskId: Id, version: int, now: int)
    requires |outbox| <= cap.maxEffects
    ensures
      var next := WithProductEffect(outbox, key, taskId, version, now);
      || |next| <= cap.maxEffects
      || (|next| == cap.maxEffects + 1 && OutboxCandidate(next, inbox).Some?)
  {
    hide OutboxCandidate, FindEffect;
    var next := WithProductEffect(outbox, key, taskId, version, now);
    if |next| > cap.maxEffects {
      assert next[|next| - 1].kind == ProductEffect && next[|next| - 1] in next;
    }
  }

  lemma ClaimedSize(inbox: seq<Item>, claimed: Item, known: bool)
    ensures |PutItem(inbox, claimed, known)| == if known then |inbox| else |inbox| + 1
  {
  }

  lemma ProductClaimIsSaved(
    d: Disk, cap: Capacity, consumer: Id, taskId: Id, key: EffectKey, token: Id, now: int, leaseMs: int)
    requires Fits(d, cap) && FindTask(d.tasks, taskId).Some?
    requires FindItem(d.inbox, Slot(consumer, key)).Some? || |d.inbox| < cap.maxEffects
    ensures
      var version, item := FindTask(d.tasks, taskId).value.version, FindItem(d.inbox, Slot(consumer, key));
      var claimed := NewClaim(consumer, taskId, key, item, token, now + leaseMs);
      SaveClaim(d, cap, WithProductEffect(d.outbox, key, taskId, version, now), claimed, item.Some?).reply ==
        Ok(LeaseGranted(token, now + leaseMs, claimed.fence))
  {
    hide Compact, FindItem, FindTask, WithProductEffect, PutItem, OutboxCandidate;
    var version, item := FindTask(d.tasks, taskId).value.version, FindItem(d.inbox, Slot(consumer, key));
    var claimed := NewClaim(consumer, taskId, key, item, token, now + leaseMs);
    var outbox := WithProductEffect(d.outbox, key, taskId, version, now);
    var m := Disk(d.revision, d.tasks, outbox, PutItem(d.inbox, claimed, item.Some?));
    ClaimedSize(d.inbox, claimed, item.Some?);
    ProductEffectMayBeDropped(d.outbox, m.inbox, cap, key, taskId, version, now);
    ClaimFits(m, cap);
  }

  /** An image within its capacity is written as it is, sorted, under the next revision. */
  lemma FittingIsSaved(d: Disk, m: Disk, cap: Capacity, reply: StoreReply)
    requires Fits(m, cap)
    ensures
      var o := Save(d, m, cap, reply);
      && o.reply == Ok(reply) && o.disk.revision == m.revision + 1
      && (forall t :: t in o.disk.tasks <==> t in m.tasks) && |o.disk.tasks| == |m.tasks|
      && o.disk.outbox == m.outbox
      && (forall i :: i in o.disk.inbox <==> i in m.inbox) && |o.disk.inbox| == |m.inbox|
  {
    FittingIsLeftAlone(m, cap);
  }

  /** `w` holds the claim and is the same otherwise, but for the effects listed. */
  ghost predicate OnlyClaimed(d: Disk, w: Disk, claimed: Item, outbox: seq<Effect>) {
    && w.revision == d.revision + 1
    && claimed in w.inbox
    && (forall i :: i in w.inbox && SlotOf(i) == SlotOf(claimed) ==> i == claimed)
    && (forall i :: SlotOf(i) != SlotOf(claimed) ==> (i in w.inbox <==> i in d.inbox))
    && (forall t :: t in w.tasks <==> t in d.tasks)
    && w.outbox == outbox
  }

  lemma {:induction false} ClaimIsStored(d: Disk, cap: Capacity, outbox: seq<Effect>, claimed: Item)
    requires claimed.delivery.Leased? && Fits(d, cap) && |outbox| <= cap.maxEffects && Unique(d.inbox, SlotOf)
    requires FindItem(d.inbox, SlotOf(claimed)).Some? || |d.inbox| < cap.maxEffects
    ensures
      var o := SaveClaim(d, cap, outbox, claimed, FindItem(d.inbox, SlotOf(claimed)).Some?);
      && o.reply == Ok(LeaseGranted(claimed.delivery.token, claimed.delivery.expiresAt, claimed.fence))
      && OnlyClaimed(d, o.disk, claimed, outbox)
  {
    hide Save;
    var known := FindItem(d.inbox, SlotOf(claimed)).Some?;
    var m := Disk(d.revision, d.tasks, outbox, PutItem(d.inbox, claimed, known));
    FittingIsSaved(d, m, cap, LeaseGranted(claimed.delivery.token, claimed.delivery.expiresAt, claimed.fence));
  }

  /** What a granted product claim leaves while the store has room: the lease of this caller in the
      slot, the effect if it is new, and everything else as it was. */
  lemma ProductGrantIsStored(
    d: Disk, cap: Capacity, consumer: Id, taskId: Id, key: EffectKey, token: Id, now: int, leaseMs: int)
    requires Good(d, cap) && OwnKey(d.inbox, taskId, key) && ValidLease(leaseMs)
    requires FindTask(d.tasks, taskId).Some? && FindTask(d.tasks, taskId).value.visibility != DeletedTask
    requires forall e :: e in d.outbox && e.key == key ==> e.taskId == taskId
    requires FindItem(d.inbox, Slot(consumer, key)).Some? || |d.inbox| < cap.maxEffects
    requires HasEffect(d.outbox, key) || |d.outbox| < cap.maxEffects
    requires Claimable(FindItem(d.inbox, Slot(consumer, key)), now)
    ensures
      var item := FindItem(d.inbox, Slot(consumer, key));
      var fence := if item.Some? then item.value.fence + 1 else 1;
      OnlyClaimed(d, ClaimProduct(d, cap, consumer, taskId, key, token, now, leaseMs).disk,
                  Item(consumer, taskId, key, fence, Leased(token, now + leaseMs)),
                  if HasEffect(d.outbox, key) then d.outbox
                  else d.outbox + [Effect(key, ProductEffect, taskId, None, FindTask(d.tasks, taskId).value.version, now)])
  {
    hide SaveClaim, FindItem, FindTask, OnlyClaimed;
    var task, effect, item := FindTask(d.tasks, taskId), FindEffect(d.outbox, key), FindItem(d.inbox, Slot(consumer, key));
    assert effect.Some? <==> HasEffect(d.outbox, key);
    assert ProductClaimAnswer(task, effect, item, taskId, now).None?;
    ClaimIsStored(d, cap, WithProductEffect(d.outbox, key, taskId, task.value.version, now),
                  NewClaim(consumer, taskId, key, item, token, now + leaseMs));
  }

  /** The delivery of an ordinary effect, to its consumer: there must be such an effect, and then the
      slot decides alone. */
  lemma OutboxClaimExactly(
    d: Disk, cap: Capacity, consumer: Id, key: EffectKey, token: Id, now: int, leaseMs: int, e: Effect)
    requires Good(d, cap) && ValidLease(leaseMs) && e in d.outbox && e.key == key
    requires FindItem(d.inbox, Slot(consumer, key)).Some? || |d.inbox| < cap.maxEffects
    ensures
      var o, item := ClaimOutbox(d, cap, consumer, key, token, now, leaseMs), FindItem(d.inbox, Slot(consumer, key));
      if Claimable(item, now) then
        var fence := if item.Some? then item.value.fence + 1 else 1;
        && o.reply == Ok(LeaseGranted(token, now + leaseMs, fence))
        && OnlyClaimed(d, o.disk, Item(consumer, e.taskId, key, fence, Leased(token, now + leaseMs)), d.outbox)
      else o == StoreOutcome(d, Ok(Undefined))
  {
    hide SaveClaim, FindItem, OnlyClaimed;
    var item := FindItem(d.inbox, Slot(consumer, key));
    FindsEffect(d.outbox, e);
    assert item.Some? ==> item.value.taskId == e.taskId;
    if Claimable(item, now) {
      ClaimIsStored(d, cap, d.outbox, NewClaim(consumer, e.taskId, key, item, token, now + leaseMs));
    }
  }

  lemma UnknownEffectIsNotClaimed(d: Disk, cap: Capacity, consumer: Id, key: EffectKey, token: Id, now: int, leaseMs: int)
    requires ValidLease(leaseMs) && !HasEffect(d.outbox, key)
    ensures ClaimOutbox(d, cap, consumer, key, token, now, leaseMs) == StoreOutcome(d, Ok(Undefined))
  {
    assert FindEffect(d.outbox, key).None?;
  }

  // ---- Tasks -------------------------------------------------------------------------------------------------

  /** `w` holds the task in the place of any earlier version of it, announces the write, and is the
      same otherwise. */
  ghost predicate OnlyWritten(d: Disk, w: Disk, task: StoredTask, e: Effect) {
    && w.revision == d.revision + 1
    && task in w.tasks
    && (forall t :: t in w.tasks && t.taskId == task.taskId ==> t == task)
    && (forall t: StoredTask :: t.taskId != task.taskId ==> (t in w.tasks <==> t in d.tasks))
    && w.outbox == d.outbox + [e]
    && (forall i :: i in w.inbox <==> i in d.inbox)
  }

  lemma {:induction false} TaskIsStored(d: Disk, cap: Capacity, task: StoredTask, e: Effect)
    requires Fits(d, cap) && Unique(d.tasks, TaskKey) && |d.outbox| < cap.maxEffects
    requires HasTask(d.tasks, task.taskId) || |d.tasks| < cap.maxTasks
    ensures
      var o := SaveTask(d, cap, task, e);
      if ValidStoredTask(task) && !HasEffect(d.outbox, e.key) then
        o.reply == Ok(Stored(task)) && OnlyWritten(d, o.disk, task, e)
      else o == StoreOutcome(d, Err(StoreInvalid))
  {
    hide Save;
    if ValidStoredTask(task) && !HasEffect(d.outbox, e.key) {
      FittingIsSaved(d, PutTask(d, task, e), cap, Stored(task));
    }
  }

  /** The version a caller has to know: that of the stored task, or zero. */
  function StoredVersion(d: Disk, taskId: Id): int {
    var t := FindTask(d.tasks, taskId);
    if t.Some? then t.value.version else 0
  }

  /** A projection is refused for its version exactly when the caller did not know the stored one. An
      accepted one stores the task it was given, under the next version, and announces it once; a
      refused one stores nothing. */
  lemma SwapIsStored(
    d: Disk, cap: Capacity, taskId: Id, expected: int, input: StoredTask, effect: EffectInput, now: int)
    requires Good(d, cap) && |d.outbox| < cap.maxEffects && (HasTask(d.tasks, taskId) || |d.tasks| < cap.maxTasks)
    ensures
      var o := CompareAndSwap(d, cap, taskId, expected, input, effect, now);
      && (o.reply == Err(VersionConflict) <==> 0 <= expected <= MAX_SAFE_INTEGER && expected != StoredVersion(d, taskId))
      && (o.reply.Err? ==> o.disk == d)
      && (o.reply.Ok? ==>
            var task := input.(taskId := taskId, version := expected + 1);
            && expected == StoredVersion(d, taskId)
            && o.reply == Ok(Stored(task))
            && OnlyWritten(d, o.disk, task, Effect(effect.key, TaskProjected, taskId, Some(task.journalVersion), expected + 1, now)))
  {
    hide SaveTask, FindTask, OnlyWritten, ProjectionAllowed;
    var task := SwappedTask(FindTask(d.tasks, taskId), taskId, input);
    TaskIsStored(d, cap, task, ProjectedEffect(effect, task.version, now));
  }

  /** The same for a mutation of a stored task. */
  lemma MutationIsStored(
    d: Disk, cap: Capacity, t: StoredTask, expected: int, m: ProductMutation, key: EffectKey, now: int)
    requires Good(d, cap) && |d.outbox| < cap.maxEffects && t in d.tasks
    ensures
      var o := MutateTask(d, cap, t.taskId, expected, m, key, now);
      && (o.reply == Err(VersionConflict) <==> 0 <= expected <= MAX_SAFE_INTEGER && expected != t.version)
      && (o.reply.Err? ==> o.disk == d)
      && (o.reply.Ok? ==>
            && expected == t.version && ParsableMutation(m) && ApplyProductMutation(t, m).Ok?
            && var task := ApplyProductMutation(t, m).value.(version := t.version + 1);
            && o.reply == Ok(Stored(task))
            && OnlyWritten(d, o.disk, task, Effect(key, TaskMutated, t.taskId, None, t.version + 1, now)))
  {
    hide SaveTask, FindTask, OnlyWritten, ApplyProductMutation;
    FindsTask(d.tasks, t);
    if ParsableMutation(m) && Mutated(t, m).Ok? {
      var task := Mutated(t, m).value;
      MutationKeepsId(t, m);
      TaskIsStored(d, cap, task, Effect(key, TaskMutated, t.taskId, None, task.version, now));
    }
    MutationIsNoConflict(t, m);
  }

  lemma MutationKeepsId(t: StoredTask, m: ProductMutation)
    requires ParsableMutation(m) && ApplyProductMutation(t, m).Ok?
    ensures ApplyProductMutation(t, m).value.taskId == t.taskId
  {
    MutationKeeps(t, m);
  }

  lemma MutationIsNoConflict(t: StoredTask, m: ProductMutation)
    ensures ApplyProductMutation(t, m) != Err(VersionConflict)
  {
  }

  /** However full the store is: a task that was stored is there, and so is every other undeleted one;
      compaction drops deleted tasks only. */
  lemma TaskIsKept(d: Disk, cap: Capacity, task: StoredTask, e: Effect)
    requires Good(d, cap) && SaveTask(d, cap, task, e).reply.Ok?
    requires ValidEffect(e) && e.taskId == task.taskId && e.kind != ProductEffect && !IsProductKey(e.key)
    ensures SaveTask(d, cap, task, e).reply == Ok(Stored(task))
    ensures
      var w := SaveTask(d, cap, task, e).disk;
      && (task.visibility != DeletedTask ==> task in w.tasks)
      && (forall t :: t in d.tasks && t.taskId != task.taskId && t.visibility != DeletedTask ==> t in w.tasks)
      && (forall t :: t in w.tasks ==> t == task || (t in d.tasks && t.taskId != task.taskId))
  {
    hide Compact, Sound, Disciplined;
    var m := PutTask(d, task, e);
    GoodIsSound(d, cap);
    PutTaskIsSound(d, task, e);
    PutTaskIsDisciplined(d, task, e);
    CompactKeeps(m, DeletedIds(m.tasks), cap);
    WrittenTasks(d, m, cap, Stored(task));
    OnlyDeletedAreLost(m, Compact(m, cap));
  }

  lemma GoodIsSound(d: Disk, cap: Capacity)
    requires Good(d, cap)
    ensures Sound(d) && Disciplined(d)
  {
  }

  lemma PutTaskIsDisciplined(d: Disk, task: StoredTask, e: Effect)
    requires Disciplined(d) && e.kind != ProductEffect && !IsProductKey(e.key)
    ensures Disciplined(PutTask(d, task, e))
  {
  }

  lemma WrittenTasks(d: Disk, m: Disk, cap: Capacity, reply: StoreReply)
    requires Save(d, m, cap, reply).reply.Ok?
    ensures Save(d, m, cap, reply).reply == Ok(reply)
    ensures forall t :: t in Save(d, m, cap, reply).disk.tasks <==> t in Compact(m, cap).tasks
  {
    hide Compact;
  }

  lemma OnlyDeletedAreLost(m: Disk, x: Disk)
    requires Sound(m) && LostTasks(m, x, DeletedIds(m.tasks))
    ensures forall t :: t in m.tasks && t.visibility != DeletedTask ==> t in x.tasks
    ensures forall t :: t in x.tasks ==> t in m.tasks
  {
    forall t | t in m.tasks && t !in x.tasks ensures t.visibility == DeletedTask {
      var u :| u in m.tasks && u.taskId == t.taskId && u.visibility == DeletedTask;
      UniqueMember(m.tasks, TaskKey, t, u);
    }
  }

  /** What an answered task write has kept, however full the store is. */
  ghost predicate Kept(d: Disk, w: Disk, task: StoredTask) {
    && (task.visibility != DeletedTask ==> task in w.tasks)
    && (forall t :: t in d.tasks && t.taskId != task.taskId && t.visibility != DeletedTask ==> t in w.tasks)
    && (forall t :: t in w.tasks ==> t == task || (t in d.tasks && t.taskId != task.taskId))
  }

  /** So a projection that was answered with a task has stored it, unless that very write deleted it,
      and has lost no other task that is not deleted. */
  lemma AnsweredSwapIsKept(
    d: Disk, cap: Capacity, taskId: Id, expected: int, input: StoredTask, effect: EffectInput, now: int)
    requires Good(d, cap) && !IsProductKey(effect.key)
    requires CompareAndSwap(d, cap, taskId, expected, input, effect, now).reply.Ok?
    ensures
      var o := CompareAndSwap(d, cap, taskId, expected, input, effect, now);
      var task := input.(taskId := taskId, version := expected + 1);
      o.reply == Ok(Stored(task)) && Kept(d, o.disk, task)
  {
    hide SaveTask, ProjectionAllowed, Good;
    var task := SwappedTask(FindTask(d.tasks, taskId), taskId, input);
    TaskIsKept(d, cap, task, ProjectedEffect(effect, task.version, now));
  }

  /** What an accepted projection may do to a stored task, exactly, besides being about the same request:
      it brings a newer journal version, brings nobody back and rebinds nobody, leaves the context, and
      delivers outputs only to a task that awaits them. */
  lemma SwapGuardExactly(t: StoredTask, next: StoredTask)
    ensures ProjectionAllowed(t, next) <==>
      && next.clientOperationId == t.clientOperationId && next.requestHash == t.requestHash && next.recordId == t.recordId
      && t.journalVersion < next.journalVersion
      && (t.visibility == DeletedTask ==> next.visibility == DeletedTask)
      && (t.visibility == HiddenTask ==> next.visibility == HiddenTask || next.visibility == DeletedTask)
      && (t.account.Some? ==> next.account == t.account) && next.context == t.context
      && (next.result != t.result ==> t.result == NotAvailable)
      && (next.outputs != t.outputs ==>
            && t.outputs == [] && (t.result == NotAvailable || t.result == PendingMaterialization)
            && next.result == PendingMaterialization
            && forall o :: o in next.outputs ==> o.providerRef.Some? && o.assetId.None? && o.errorCode.None?)
  {
  }

  /** An accepted projection passed that guard against the stored task, and its effect names the task and
      the version it was projected from. */
  lemma AnsweredSwapWasAllowed(
    d: Disk, cap: Capacity, taskId: Id, expected: int, input: StoredTask, effect: EffectInput, now: int)
    requires CompareAndSwap(d, cap, taskId, expected, input, effect, now).reply.Ok?
    ensures effect.taskId == taskId && effect.journalVersion == Some(input.journalVersion)
    ensures
      var current := FindTask(d.tasks, taskId);
      current.Some? ==> ProjectionAllowed(current.value, input.(taskId := taskId, version := expected + 1))
  {
    hide ProjectionAllowed, SaveTask;
  }

  /** The same for a product mutation. */
  lemma AnsweredMutationIsKept(
    d: Disk, cap: Capacity, t: StoredTask, expected: int, m: ProductMutation, key: EffectKey, now: int)
    requires Good(d, cap) && !IsProductKey(key) && t in d.tasks
    requires MutateTask(d, cap, t.taskId, expected, m, key, now).reply.Ok?
    ensures ApplyProductMutation(t, m).Ok?
    ensures
      var o := MutateTask(d, cap, t.taskId, expected, m, key, now);
      var task := ApplyProductMutation(t, m).value.(version := expected + 1);
      o.reply == Ok(Stored(task)) && Kept(d, o.disk, task)
  {
    hide SaveTask, ApplyProductMutation, Good;
    UniqueTask(d, cap, t);
    var task := Mutated(t, m).value;
    MutationKeepsId(t, m);
    StoredIsValid(d, cap, task, Effect(key, TaskMutated, t.taskId, None, task.version, now));
    TaskIsKept(d, cap, task, Effect(key, TaskMutated, t.taskId, None, task.version, now));
  }

  lemma UniqueTask(d: Disk, cap: Capacity, t: StoredTask)
    requires Good(d, cap) && t in d.tasks
    ensures FindTask(d.tasks, t.taskId) == Some(t)
  {
    FindsTask(d.tasks, t);
  }

  lemma StoredIsValid(d: Disk, cap: Capacity, task: StoredTask, e: Effect)
    requires SaveTask(d, cap, task, e).reply.Ok?
    ensures 1 <= task.version <= MAX_SAFE_INTEGER
  {
  }

  /** A materialization of a successful task stores exactly the result and the outputs it was given,
      when the result may follow the stored one; it changes nothing else. */
  lemma MaterializationIsStored(t: StoredTask, result: ResultState, outputs: seq<TaskOutput>, at: int)
    ensures
      var m := ApplyProductMutation(t, Materialization(result, outputs, at));
      if t.updatedAt <= at && t.lifecycle == Terminal && t.outcome == Some(Success) && ResultMayBecome(t.result, result) then
        && m.Ok? && m.value.result == result && m.value.outputs == outputs && m.value.updatedAt == at
        && m.value == t.(result := result, outputs := outputs, updatedAt := at)
      else m == Err(StoreInvalid)
  {
  }

  /** The events of the product change the contact to the provider or the context, and nothing else: a
      failure is stored with its reason, a recovery clears it unless there is a conflict, and a binding
      adds its fields unless one disagrees. An event from before the last change is refused. */
  lemma EventIsStored(t: StoredTask, e: Event, at: int)
    requires e.SyncFailed? || e.SyncRecovered? || (e.BindContext? && e.account.None?)
    ensures ParsableMutation(EventMutation(e, at))
    ensures
      var m := ApplyProductMutation(t, EventMutation(e, at));
      if at < t.updatedAt || (e.BindContext? && t.context.LegacyUnscoped?) then m == Err(StoreInvalid)
      else
        match e
        case SyncFailed(kind, code) =>
          if SafeErrorCode(code) then
            && m.Ok? && m.value == t.(sync := m.value.sync, lastSyncError := Some(code), updatedAt := at)
            && m.value.sync == (if kind == AccountError then SyncBlockedAccount else SyncRetryWait)
          else m == Err(TransitionRefused)
        case SyncRecovered =>
          m == Ok(if t.sync == SyncConflict then t.(updatedAt := at)
                  else t.(sync := SyncOk, lastSyncError := None, updatedAt := at))
        case BindContext(_, fields) =>
          if Clashes(t.context.fields, fields) then m == Ok(t.(sync := SyncConflict, updatedAt := at))
          else m == Ok(t.(context := Scoped(t.context.fields + fields), updatedAt := at))
  {
  }

  /** Which result a materialization may store, seen from the stored one: work may end well or badly
      at any time after it was asked for, only a failure may be tried again, and nothing follows the
      two ends or a task that has no result to make. */
  lemma ResultTableExactly(from: ResultState, to: ResultState)
    ensures to == Ready ==> (ResultMayBecome(from, to) <==> from == PendingMaterialization || from == Materializing)
    ensures to == FailedRetryable ==> (ResultMayBecome(from, to) <==> from == PendingMaterialization || from == Materializing)
    ensures to == Materializing ==> (ResultMayBecome(from, to) <==> from == PendingMaterialization || from == FailedRetryable)
    ensures to == FailedPermanent ==>
      (ResultMayBecome(from, to) <==> from != NotAvailable && from != Ready && from != FailedPermanent)
    ensures to == NotAvailable || to == PendingMaterialization ==> !ResultMayBecome(from, to)
  {
  }
}
