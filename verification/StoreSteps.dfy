/** Every operation of the product store, compaction included, against the recovery gate. */
module StoreSteps {
  import opened Prelude
  import opened Lists
  import opened TaskContract
  import opened TaskStore
  import opened StoreGate

  /** A readable store in disciplined use. */
  ghost predicate Good(d: Disk, cap: Capacity) {
    Readable(d, cap) && Disciplined(d)
  }

  /** No counter has run out of safe integers. */
  ghost predicate Room(d: Disk) {
    d.revision < MAX_SAFE_INTEGER && forall i :: i in d.inbox ==> i.fence < MAX_SAFE_INTEGER
  }

  /** The operation left the store alone, or wrote an image that is readable, in disciplined use,
      and that recovery accepts in the place of the old one. */
  ghost predicate Explained(d: Disk, w: Disk, cap: Capacity) {
    Good(w, cap) && Remembers(d, w) && (w == d || (w.revision == d.revision + 1 && Gate(d, w)))
  }

  lemma NothingIsExplained(d: Disk, cap: Capacity)
    requires Good(d, cap)
    ensures Explained(d, d, cap)
  {
    forall i | i in d.inbox ensures FindItem(d.inbox, SlotOf(i)).Some? {
    }
  }

  // ---- Operations that add something ---------------------------------------------------------------------

  function DeletedIds(tasks: seq<StoredTask>): (r: set<Id>)
    ensures forall t :: t in tasks && t.visibility == DeletedTask ==> t.taskId in r
    ensures forall id :: id in r ==> IsDeleted(tasks, id)
  {
    set t | t in tasks && t.visibility == DeletedTask :: t.taskId
  }

  lemma {:induction false} GoneWereDeleted(d: seq<StoredTask>, m: seq<StoredTask>)
    requires Unique(m, TaskKey) && forall t :: t in d ==> t in m
    ensures GoneBefore(d, DeletedIds(m))
  {
    forall t | t in d && t.taskId in DeletedIds(m) ensures t.visibility == DeletedTask {
      var u :| u in m && u.taskId == t.taskId && u.visibility == DeletedTask;
      UniqueMember(m, TaskKey, t, u);
    }
  }

  lemma TasksStay(tasks: seq<StoredTask>, m: seq<StoredTask>)
    requires forall t :: t in tasks ==> t in m
    ensures TasksGrow(tasks, m)
  {
    forall t | t in tasks ensures exists u :: u in m && u.taskId == t.taskId && TaskProgresses(t, u) {
      assert TaskProgresses(t, t);
    }
  }

  lemma GrowthIsExplained(d: Disk, m: Disk, gone: set<Id>, cap: Capacity, reply: StoreReply)
    requires Good(d, cap) && Room(d) && m.revision == d.revision
    requires TasksGrow(d.tasks, m.tasks) && OutboxGrows(d.outbox, m.outbox) && InboxGrows(d.inbox, m.inbox)
    requires Sound(m) && Compacted(m, Compact(m, cap), gone) && GoneBefore(d.tasks, gone)
    ensures Explained(d, Save(d, m, cap, reply).disk, cap)
    ensures KeepsLeases(m, Save(d, m, cap, reply))
  {
    NothingIsExplained(d, cap);
    if Written(m, cap).Some? {
      GrowthPassesGate(d, m, gone, cap);
      WrittenShape(m, cap);
    }
  }

  /** What is saved still holds every lease it was to hold. */
  ghost predicate KeepsLeases(m: Disk, o: StoreOutcome) {
    o.reply.Ok? ==> forall i :: i in m.inbox && i.delivery.Leased? ==> i in o.disk.inbox
  }

  /** Saving a change that only adds tasks, effects and claims. */
  lemma AdditionIsExplained(d: Disk, m: Disk, cap: Capacity, reply: StoreReply)
    requires Good(d, cap) && Room(d) && m.revision == d.revision
    requires (forall t :: t in d.tasks ==> t in m.tasks) && OutboxGrows(d.outbox, m.outbox) && InboxGrows(d.inbox, m.inbox)
    requires Sound(m) && Disciplined(m)
    ensures Explained(d, Save(d, m, cap, reply).disk, cap)
    ensures KeepsLeases(m, Save(d, m, cap, reply))
  {
    TasksStay(d.tasks, m.tasks);
    GoneWereDeleted(d.tasks, m.tasks);
    CompactKeeps(m, DeletedIds(m.tasks), cap);
    GrowthIsExplained(d, m, DeletedIds(m.tasks), cap, reply);
  }

  // ---- Claims ----------------------------------------------------------------------------------------------

  lemma {:induction false} ClaimGrows(inbox: seq<Item>, claimed: Item)
    requires Unique(inbox, SlotOf) && claimed.delivery.Leased?
    requires
      var item := FindItem(inbox, SlotOf(claimed));
      claimed.fence == NextFence(item)
      && (item.Some? ==> item.value.taskId == claimed.taskId && !item.value.delivery.Completed?)
    ensures
      var m := PutItem(inbox, claimed, FindItem(inbox, SlotOf(claimed)).Some?);
      && InboxGrows(inbox, m) && Unique(m, SlotOf)
      && claimed in m
      && (forall i :: i in m ==> i == claimed || (i in inbox && SlotOf(i) != SlotOf(claimed)))
      && (forall i :: i in inbox && SlotOf(i) != SlotOf(claimed) ==> i in m)
  {
    var item := FindItem(inbox, SlotOf(claimed));
    var m := PutItem(inbox, claimed, item.Some?);
    PutUnique(inbox, SlotOf, claimed);
    if item.None? { AppendUnique(inbox, SlotOf, claimed); }
    forall i | i in inbox && i !in m ensures exists j :: j in m && Reclaims(i, j) {
      UniqueMember(inbox, SlotOf, i, item.value);
      assert Reclaims(i, claimed);
    }
  }

  lemma {:induction false} ClaimIsSound(d: Disk, outbox: seq<Effect>, inbox: seq<Item>, claimed: Item)
    requires Sound(d) && OutboxOk(d.tasks, outbox) && ValidItem(claimed) && HasTask(d.tasks, claimed.taskId)
    requires (forall e :: e in outbox && e.key == claimed.key ==> e.taskId == claimed.taskId)
    requires IsProductKey(claimed.key) || HasEffect(outbox, claimed.key)
    requires (forall e :: e in d.outbox ==> e in outbox)
    requires forall e :: e in outbox ==> e in d.outbox || (forall i :: i in d.inbox && i.key == e.key ==> i.taskId == e.taskId)
    requires Unique(inbox, SlotOf) && forall i :: i in inbox ==> i == claimed || i in d.inbox
    ensures Sound(Disk(d.revision, d.tasks, outbox, inbox))
  {
    forall i | i in inbox && !HasEffect(outbox, i.key) ensures i == claimed || !HasEffect(d.outbox, i.key) {
      assert forall e :: e in d.outbox && e.key == i.key ==> e in outbox;
    }
  }

  /** An effect without product key may be claimed by its one consumer. */
  predicate OnlyConsumer(inbox: seq<Item>, consumer: Id, key: EffectKey) {
    IsProductKey(key) || forall i :: i in inbox && i.key == key ==> i.consumer == consumer
  }

  lemma ClaimIsDisciplined(inbox: seq<Item>, m: seq<Item>, claimed: Item)
    requires Lone(inbox) && ReleasedAreProduct(inbox) && OnlyConsumer(inbox, claimed.consumer, claimed.key)
    requires claimed.delivery.Leased?
    requires forall i :: i in m ==> i == claimed || (i in inbox && SlotOf(i) != SlotOf(claimed))
    ensures Lone(m) && ReleasedAreProduct(m)
  {
    forall i | i in m && i.key == claimed.key && !IsProductKey(i.key) ensures i == claimed {
      assert i in inbox ==> SlotOf(i) == SlotOf(claimed);
    }
  }

  lemma SaveClaimIsExplained(d: Disk, cap: Capacity, outbox: seq<Effect>, claimed: Item)
    requires Good(d, cap) && Room(d) && claimed.delivery.Leased? && HasTask(d.tasks, claimed.taskId)
    requires OutboxGrows(d.outbox, outbox) && OutboxOk(d.tasks, outbox) && KindsMatch(outbox)
    requires forall e :: e in outbox && e.key == claimed.key ==> e.taskId == claimed.taskId
    requires forall e :: e in outbox && e !in d.outbox ==> e.key == claimed.key
    requires forall i :: i in d.inbox && i.key == claimed.key ==> i.taskId == claimed.taskId
    requires IsProductKey(claimed.key) || HasEffect(outbox, claimed.key)
    requires OnlyConsumer(d.inbox, claimed.consumer, claimed.key)
    requires
      var item := FindItem(d.inbox, SlotOf(claimed));
      claimed.fence == NextFence(item) && (item.Some? ==> !item.value.delivery.Completed?)
    ensures Explained(d, SaveClaim(d, cap, outbox, claimed, FindItem(d.inbox, SlotOf(claimed)).Some?).disk, cap)
    ensures
      var o := SaveClaim(d, cap, outbox, claimed, FindItem(d.inbox, SlotOf(claimed)).Some?);
      o.reply.Ok? ==> claimed in o.disk.inbox
  {
    var known := FindItem(d.inbox, SlotOf(claimed)).Some?;
    var m := Disk(d.revision, d.tasks, outbox, PutItem(d.inbox, claimed, known));
    ClaimGrows(d.inbox, claimed);
    ClaimIsDisciplined(d.inbox, m.inbox, claimed);
    ClaimIsSound(d, outbox, m.inbox, claimed);
    AdditionIsExplained(d, m, cap, LeaseGranted(claimed.delivery.token, claimed.delivery.expiresAt, claimed.fence));
  }

  lemma ClaimOutboxIsExplained(
    d: Disk, cap: Capacity, consumer: Id, key: EffectKey, token: Id, now: int, leaseMs: int)
    requires Good(d, cap) && Room(d) && OnlyConsumer(d.inbox, consumer, key)
    ensures Explained(d, ClaimOutbox(d, cap, consumer, key, token, now, leaseMs).disk, cap)
  {
    hide Gate;
    NothingIsExplained(d, cap);
    var effect, item := FindEffect(d.outbox, key), FindItem(d.inbox, Slot(consumer, key));
    if DeliveryClaimAnswer(effect, item, now).None? {
      forall e | e in d.outbox && e.key == key ensures e == effect.value { FindsEffect(d.outbox, e); }
      SaveClaimIsExplained(d, cap, d.outbox, NewClaim(consumer, effect.value.taskId, key, item, token, now + leaseMs));
    }
  }

  /** The key of a product effect names one task. */
  predicate OwnKey(inbox: seq<Item>, taskId: Id, key: EffectKey) {
    IsProductKey(key) && forall i :: i in inbox && i.key == key ==> i.taskId == taskId
  }

  lemma ProductEffectAdded(d: Disk, taskId: Id, key: EffectKey, version: int, now: int)
    requires Sound(d) && KindsMatch(d.outbox)
    requires FindEffect(d.outbox, key).Some? ==> FindEffect(d.outbox, key).value.taskId == taskId
    requires IsProductKey(key) && HasTask(d.tasks, taskId) && 1 <= version <= MAX_SAFE_INTEGER
    ensures
      var outbox := WithProductEffect(d.outbox, key, taskId, version, now);
      && OutboxGrows(d.outbox, outbox) && OutboxOk(d.tasks, outbox) && KindsMatch(outbox)
      && (forall e :: e in outbox && e.key == key ==> e.taskId == taskId)
      && (forall e :: e in outbox && e !in d.outbox ==> e.key == key)
  {
    if FindEffect(d.outbox, key).None? {
      AppendUnique(d.outbox, EffectKeyOf, Effect(key, ProductEffect, taskId, None, version, now));
    } else {
      forall e | e in d.outbox && e.key == key ensures e.taskId == taskId { FindsEffect(d.outbox, e); }
    }
  }

  lemma ClaimProductIsExplained(
    d: Disk, cap: Capacity, consumer: Id, taskId: Id, key: EffectKey, token: Id, now: int, leaseMs: int)
    requires Good(d, cap) && Room(d) && OwnKey(d.inbox, taskId, key)
    ensures Explained(d, ClaimProduct(d, cap, consumer, taskId, key, token, now, leaseMs).disk, cap)
  {
    hide FindTask, SaveClaim, Explained;
    NothingIsExplained(d, cap);
    var task, effect, item := FindTask(d.tasks, taskId), FindEffect(d.outbox, key), FindItem(d.inbox, Slot(consumer, key));
    if ProductClaimAnswer(task, effect, item, taskId, now).None? {
      ProductEffectAdded(d, taskId, key, task.value.version, now);
      SaveClaimIsExplained(d, cap, WithProductEffect(d.outbox, key, taskId, task.value.version, now),
                           NewClaim(consumer, taskId, key, item, token, now + leaseMs));
    }
  }

  // ---- Deliveries --------------------------------------------------------------------------------------------

  /** A store within its capacity is not compacted. */
  lemma FittingIsLeftAlone(m: Disk, cap: Capacity)
    requires Fits(m, cap)
    ensures Compact(m, cap) == m
  {
  }

  lemma {:induction false} PutItemIsSound(d: Disk, item: Item, next: Item)
    requires Sound(d) && item in d.inbox && ValidItem(next)
    requires next.consumer == item.consumer && next.key == item.key && next.taskId == item.taskId
    ensures Sound(Disk(d.revision, d.tasks, d.outbox, Put(d.inbox, SlotOf, next)))
  {
    PutUnique(d.inbox, SlotOf, next);
    LikeItemsAreOk(d, Put(d.inbox, SlotOf, next), item, next);
  }

  lemma {:induction false} LikeItemsAreOk(d: Disk, inbox: seq<Item>, item: Item, next: Item)
    requires InboxOk(d.tasks, d.outbox, d.inbox) && item in d.inbox && ValidItem(next)
    requires next.key == item.key && next.taskId == item.taskId
    requires Unique(inbox, SlotOf) && forall i :: i in inbox ==> i in d.inbox || i == next
    ensures InboxOk(d.tasks, d.outbox, inbox)
  {
  }

  lemma {:induction false} PutItemIsDisciplined(inbox: seq<Item>, item: Item, next: Item)
    requires Lone(inbox) && ReleasedAreProduct(inbox) && item in inbox && SlotOf(next) == SlotOf(item)
    requires next.delivery.Released? ==> IsProductKey(next.key)
    ensures Lone(Put(inbox, SlotOf, next)) && ReleasedAreProduct(Put(inbox, SlotOf, next))
  {
    var m := Put(inbox, SlotOf, next);
    forall i | i in m && i.key == next.key && !IsProductKey(i.key) ensures i == next {
      assert i in inbox ==> i.key == item.key;
    }
  }

  lemma {:induction false} SortedTasksPassGate(d: Disk, tasks: seq<StoredTask>)
    requires TasksOk(d.tasks) && Unique(tasks, TaskKey) && forall t :: t in tasks <==> t in d.tasks
    ensures TasksProgress(d.tasks, tasks)
  {
    forall p | p in d.tasks ensures FindTask(tasks, p.taskId) == Some(p) {
      FindsTask(tasks, p);
    }
  }

  lemma SameOutboxPassesGate(d: Disk)
    requires OutboxOk(d.tasks, d.outbox)
    ensures OutboxProgresses(d, d.outbox)
  {
    forall e | e in d.outbox ensures FindEffect(d.outbox, e.key) == Some(e) {
      FindsEffect(d.outbox, e);
    }
  }

  lemma {:induction false} OneItemPassesGateExactly(d: Disk, item: Item, next: Item, inbox: seq<Item>)
    requires InboxOk(d.tasks, d.outbox, d.inbox) && item in d.inbox && SlotOf(next) == SlotOf(item)
    requires Unique(inbox, SlotOf) && forall i :: i in inbox <==> i in Put(d.inbox, SlotOf, next)
    ensures InboxProgresses(d, inbox) <==> ItemProgresses(item, next)
  {
    assert next in inbox;
    FindsItem(inbox, next);
    forall i | i in d.inbox && i != item ensures FindItem(inbox, SlotOf(i)) == Some(i) {
      if SlotOf(i) == SlotOf(item) { UniqueMember(d.inbox, SlotOf, i, item); }
      FindsItem(inbox, i);
    }
    forall i | i in d.inbox ensures i == item || ItemProgresses(i, i) {
    }
  }

  lemma DeliverShape(d: Disk, cap: Capacity, item: Item, next: Delivery, reply: StoreReply)
    requires Good(d, cap) && Room(d) && item in d.inbox
    requires next.Released? ==> IsProductKey(item.key)
    ensures
      var w := Deliver(d, cap, item, next, reply).disk;
      && w.revision == d.revision + 1
      && Good(w, cap)
      && (forall i :: i in w.inbox <==> i in Put(d.inbox, SlotOf, item.(delivery := next)))
      && (forall t :: t in w.tasks <==> t in d.tasks)
      && w.outbox == d.outbox
  {
    hide Put, TasksOk;
    var after := item.(delivery := next);
    var m := Disk(d.revision, d.tasks, d.outbox, Put(d.inbox, SlotOf, after));
    FittingIsLeftAlone(m, cap);
    PutItemIsSound(d, item, after);
    PutItemIsDisciplined(d.inbox, item, after);
    WrittenShape(m, cap);
  }

  /** Changing one pending delivery is always written; recovery accepts it exactly when the
      delivery progresses. */
  lemma DeliverExactly(d: Disk, cap: Capacity, item: Item, next: Delivery, reply: StoreReply)
    requires Good(d, cap) && Room(d) && item in d.inbox
    requires next.Released? ==> IsProductKey(item.key)
    ensures
      var w := Deliver(d, cap, item, next, reply).disk;
      && w.revision == d.revision + 1
      && Good(w, cap)
      && (forall i :: i in w.inbox <==> i in Put(d.inbox, SlotOf, item.(delivery := next)))
      && (forall t :: t in w.tasks <==> t in d.tasks)
      && w.outbox == d.outbox
      && (Gate(d, w) <==> ItemProgresses(item, item.(delivery := next)))
  {
    var w := Deliver(d, cap, item, next, reply).disk;
    DeliverShape(d, cap, item, next, reply);
    SortedTasksPassGate(d, w.tasks);
    SameOutboxPassesGate(d);
    OneItemPassesGateExactly(d, item, item.(delivery := next), w.inbox);
  }

  lemma {:induction false} DeliverRemembers(d: Disk, w: Disk, item: Item, next: Item)
    requires InboxOk(d.tasks, d.outbox, d.inbox) && item in d.inbox && item.delivery.Leased? && SlotOf(next) == SlotOf(item)
    requires forall i :: i in w.inbox <==> i in Put(d.inbox, SlotOf, next)
    ensures Remembers(d, w)
  {
    assert next in w.inbox;
    forall i | i in d.inbox && i != item ensures i in w.inbox {
      if SlotOf(i) == SlotOf(item) { UniqueMember(d.inbox, SlotOf, i, item); }
    }
  }

  lemma DeliverIsExplainedExactly(d: Disk, cap: Capacity, item: Item, next: Delivery, reply: StoreReply)
    requires Good(d, cap) && Room(d) && item in d.inbox && item.delivery.Leased?
    requires next.Released? ==> IsProductKey(item.key)
    ensures Explained(d, Deliver(d, cap, item, next, reply).disk, cap) <==> ItemProgresses(item, item.(delivery := next))
  {
    DeliverExactly(d, cap, item, next, reply);
    DeliverRemembers(d, Deliver(d, cap, item, next, reply).disk, item, item.(delivery := next));
  }

  /** A renewal is explained exactly when it does not shorten the lease. */
  lemma RenewExactly(
    d: Disk, cap: Capacity, consumer: Id, taskId: Id, key: EffectKey, token: Id, fence: int, now: int, leaseMs: int)
    requires Good(d, cap) && Room(d) && ValidLease(leaseMs) && 1 <= fence <= MAX_SAFE_INTEGER
    requires Presents(FindItem(d.inbox, Slot(consumer, key)), taskId, token, fence, now)
    ensures
      var expiry := FindItem(d.inbox, Slot(consumer, key)).value.delivery.expiresAt;
      Explained(d, RenewEffect(d, cap, consumer, taskId, key, token, fence, now, leaseMs).disk, cap) <==> expiry <= now + leaseMs
  {
    var item := FindItem(d.inbox, Slot(consumer, key)).value;
    DeliverIsExplainedExactly(d, cap, item, Leased(token, now + leaseMs), LeaseRenewed(now + leaseMs));
  }

  lemma FinishIsExplained(
    d: Disk, cap: Capacity, consumer: Id, taskId: Id, key: EffectKey, token: Id, fence: int, end: Option<EffectResult>, now: int)
    requires Good(d, cap) && Room(d) && (end.None? ==> IsProductKey(key))
    ensures Explained(d, FinishEffect(d, cap, consumer, taskId, key, token, fence, end, now).disk, cap)
  {
    hide Deliver;
    NothingIsExplained(d, cap);
    var item := FindItem(d.inbox, Slot(consumer, key));
    if 1 <= fence <= MAX_SAFE_INTEGER && Presents(item, taskId, token, fence, now) {
      DeliverIsExplainedExactly(d, cap, item.value, if end.Some? then Completed(now, end) else Released(now), Finished);
    }
  }

  lemma CompleteOutboxIsExplained(d: Disk, cap: Capacity, consumer: Id, key: EffectKey, token: Id, now: int)
    requires Good(d, cap) && Room(d)
    ensures Explained(d, CompleteOutbox(d, cap, consumer, key, token, now).disk, cap)
  {
    NothingIsExplained(d, cap);
    var item := FindItem(d.inbox, Slot(consumer, key));
    if item.Some? && Presents(item, item.value.taskId, token, item.value.fence, now) {
      DeliverIsExplainedExactly(d, cap, item.value, Completed(now, None), Finished);
    }
  }

  /** A change of a delivery never overfills the store. */
  lemma FinishIsWritten(d: Disk, cap: Capacity, item: Item, next: Delivery)
    requires Fits(d, cap)
    ensures Deliver(d, cap, item, next, Finished).reply == Ok(Finished)
  {
    FittingIsLeftAlone(Disk(d.revision, d.tasks, d.outbox, Put(d.inbox, SlotOf, item.(delivery := next))), cap);
  }

  /** Whoever presents the lease of an item in time may complete it. */
  lemma PresenterMayFinish(d: Disk, cap: Capacity, i: Item, token: Id, result: EffectResult, now: int)
    requires Good(d, cap) && i in d.inbox && i.delivery.Leased? && i.delivery.token == token && now < i.delivery.expiresAt
    ensures FinishEffect(d, cap, i.consumer, i.taskId, i.key, token, i.fence, Some(result), now).reply == Ok(Finished)
  {
    FindsItem(d.inbox, i);
    assert ValidItem(i);
    FinishIsWritten(d, cap, i, Completed(now, Some(result)));
  }

  /** A granted claim was saved. */
  lemma GrantIsSaved(
    d: Disk, cap: Capacity, consumer: Id, taskId: Id, key: EffectKey, token: Id, now: int, leaseMs: int, o: StoreOutcome,
    claimed: Item)
    requires o == ClaimProduct(d, cap, consumer, taskId, key, token, now, leaseMs)
    requires o.reply.Ok? && o.reply.value.LeaseGranted?
    requires claimed == NewClaim(consumer, taskId, key, FindItem(d.inbox, Slot(consumer, key)), token, now + leaseMs)
    ensures
      var task, effect, item := FindTask(d.tasks, taskId), FindEffect(d.outbox, key), FindItem(d.inbox, Slot(consumer, key));
      && ProductClaimAnswer(task, effect, item, taskId, now).None? && task.Some?
      && o == SaveClaim(d, cap, WithProductEffect(d.outbox, key, taskId, task.value.version, now), claimed, item.Some?)
      && o.reply.value == LeaseGranted(token, now + leaseMs, claimed.fence)
  {
    hide Written, FindItem, FindEffect, WithProductEffect, PutItem;
  }

  lemma GrantedClaimIsKept(
    d: Disk, cap: Capacity, consumer: Id, taskId: Id, key: EffectKey, token: Id, now: int, leaseMs: int, o: StoreOutcome)
    requires Good(d, cap) && Room(d) && OwnKey(d.inbox, taskId, key)
    requires o == ClaimProduct(d, cap, consumer, taskId, key, token, now, leaseMs)
    requires o.reply.Ok? && o.reply.value.LeaseGranted?
    ensures
      var claimed := NewClaim(consumer, taskId, key, FindItem(d.inbox, Slot(consumer, key)), token, now + leaseMs);
      && o.reply.value == LeaseGranted(token, now + leaseMs, claimed.fence)
      && claimed in o.disk.inbox
  {
    hide ClaimProduct, SaveClaim, FindItem, FindTask, FindEffect;
    var task, item := FindTask(d.tasks, taskId), FindItem(d.inbox, Slot(consumer, key));
    var claimed := NewClaim(consumer, taskId, key, item, token, now + leaseMs);
    GrantIsSaved(d, cap, consumer, taskId, key, token, now, leaseMs, o, claimed);
    ProductEffectAdded(d, taskId, key, task.value.version, now);
    SaveClaimIsExplained(d, cap, WithProductEffect(d.outbox, key, taskId, task.value.version, now), claimed);
  }

  /** A granted product claim is worth something: until it expires its holder may complete it, even
      if compaction dropped the effect itself. */
  lemma HolderMayFinish(
    d: Disk, cap: Capacity, consumer: Id, taskId: Id, key: EffectKey, token: Id, now: int, leaseMs: int, o: StoreOutcome,
    result: EffectResult, later: int)
    requires Good(d, cap) && Room(d) && OwnKey(d.inbox, taskId, key) && later < now + leaseMs
    requires o == ClaimProduct(d, cap, consumer, taskId, key, token, now, leaseMs)
    requires o.reply.Ok? && o.reply.value.LeaseGranted?
    ensures
      && o.reply.value.token == token && o.reply.value.expiresAt == now + leaseMs
      && FinishEffect(o.disk, cap, consumer, taskId, key, token, o.reply.value.fence, Some(result), later).reply == Ok(Finished)
  {
    GrantedClaimIsKept(d, cap, consumer, taskId, key, token, now, leaseMs, o);
    ClaimProductIsExplained(d, cap, consumer, taskId, key, token, now, leaseMs);
    var claimed := NewClaim(consumer, taskId, key, FindItem(d.inbox, Slot(consumer, key)), token, now + leaseMs);
    PresenterMayFinish(o.disk, cap, claimed, token, result, later);
  }

  // ---- Tasks ---------------------------------------------------------------------------------------------------

  /** Nothing but effects is dropped while tasks and deliveries fit. */
  lemma {:induction false} OutboxCompactionShrinks(x: Disk, cap: Capacity)
    ensures |CompactOutbox(x, cap).inbox| <= |x.inbox|
    ensures CompactOutbox(x, cap).tasks == x.tasks
    decreases |x.outbox|
  {
    var e := OutboxCandidate(x.outbox, x.inbox);
    if |x.outbox| > cap.maxEffects && e.Some? {
      OutboxCompactionShrinks(DropEffect(x, e.value), cap);
    }
  }

  lemma EffectsOnly(m: Disk, cap: Capacity)
    requires Sound(m) && Disciplined(m) && |m.tasks| <= cap.maxTasks && |m.inbox| <= cap.maxEffects
    ensures Compacted(m, Compact(m, cap), {})
  {
    var a := CompactOutbox(m, cap);
    OutboxCompactionShrinks(m, cap);
    CompactedRefl(m, {});
    CompactOutboxKeeps(m, m, {}, cap);
    CompactOutboxKeeps(m, a, {}, cap);
    assert Compact(m, cap) == CompactOutbox(a, cap);
  }

  lemma PutIntoIsOk(tasks: seq<StoredTask>, task: StoredTask)
    requires TasksOk(tasks) && ValidStoredTask(task)
    ensures TasksOk(PutInto(tasks, task)) && task in PutInto(tasks, task)
    ensures forall t :: t in tasks && t.taskId != task.taskId ==> t in PutInto(tasks, task)
    ensures forall id :: HasTask(tasks, id) ==> HasTask(PutInto(tasks, task), id)
  {
    var m := PutInto(tasks, task);
    PutUnique(tasks, TaskKey, task);
    if !HasTask(tasks, task.taskId) { AppendUnique(tasks, TaskKey, task); }
    assert task in m;
    forall id | HasTask(tasks, id) ensures HasTask(m, id) {
      var t :| t in tasks && t.taskId == id;
      assert t in m || id == task.taskId;
    }
  }

  lemma {:induction false} PutIntoGrows(tasks: seq<StoredTask>, prior: StoredTask, task: StoredTask)
    requires Unique(tasks, TaskKey) && prior in tasks && task.taskId == prior.taskId && TaskProgresses(prior, task)
    ensures TasksGrow(tasks, PutInto(tasks, task))
  {
    var m := PutInto(tasks, task);
    assert HasTask(tasks, task.taskId);
    forall t | t in tasks ensures exists u :: u in m && u.taskId == t.taskId && TaskProgresses(t, u) {
      if t.taskId == task.taskId {
        UniqueMember(tasks, TaskKey, t, prior);
        assert task in m;
      } else {
        assert t in m && TaskProgresses(t, t);
      }
    }
  }

  lemma AddedEffectIsOk(d: Disk, tasks: seq<StoredTask>, e: Effect)
    requires OutboxOk(d.tasks, d.outbox) && ValidEffect(e) && HasTask(tasks, e.taskId)
    requires forall id :: HasTask(d.tasks, id) ==> HasTask(tasks, id)
    requires !HasEffect(d.outbox, e.key)
    ensures OutboxOk(tasks, d.outbox + [e])
  {
    AppendUnique(d.outbox, EffectKeyOf, e);
  }

  lemma InboxUnderAddedEffect(d: Disk, tasks: seq<StoredTask>, e: Effect)
    requires InboxOk(d.tasks, d.outbox, d.inbox)
    requires forall id :: HasTask(d.tasks, id) ==> HasTask(tasks, id)
    requires !IsProductKey(e.key) && !HasEffect(d.outbox, e.key)
    ensures InboxOk(tasks, d.outbox + [e], d.inbox)
  {
    forall i | i in d.inbox && !HasEffect(d.outbox + [e], i.key) ensures !HasEffect(d.outbox, i.key) {
      assert forall f :: f in d.outbox ==> f in d.outbox + [e];
    }
  }

  lemma PutTaskIsSound(d: Disk, task: StoredTask, e: Effect)
    requires Sound(d) && ValidStoredTask(task) && ValidEffect(e) && e.taskId == task.taskId
    requires !IsProductKey(e.key) && !HasEffect(d.outbox, e.key)
    ensures Sound(PutTask(d, task, e))
  {
    PutIntoIsOk(d.tasks, task);
    AddedEffectIsOk(d, PutInto(d.tasks, task), e);
    InboxUnderAddedEffect(d, PutInto(d.tasks, task), e);
  }

  lemma ReplacementFits(d: Disk, prior: StoredTask, task: StoredTask, e: Effect)
    requires prior in d.tasks && task.taskId == prior.taskId && e.kind != ProductEffect && !IsProductKey(e.key)
    requires Disciplined(d)
    ensures
      var m := PutTask(d, task, e);
      && |m.tasks| == |d.tasks| && m.tasks == PutInto(d.tasks, task)
      && Disciplined(m) && OutboxGrows(d.outbox, m.outbox) && InboxGrows(d.inbox, m.inbox)
  {
    assert HasTask(d.tasks, task.taskId);
  }

  /** Replacing a task by one it may become. */
  lemma ReplacementIsExplained(d: Disk, cap: Capacity, prior: StoredTask, task: StoredTask, e: Effect, reply: StoreReply)
    requires Good(d, cap) && Room(d) && prior in d.tasks && task.taskId == prior.taskId && TaskProgresses(prior, task)
    requires ValidStoredTask(task) && ValidEffect(e) && e.taskId == task.taskId && e.kind != ProductEffect
    requires !IsProductKey(e.key) && !HasEffect(d.outbox, e.key)
    ensures Explained(d, Save(d, PutTask(d, task, e), cap, reply).disk, cap)
  {
    var m := PutTask(d, task, e);
    PutTaskIsSound(d, task, e);
    ReplacementFits(d, prior, task, e);
    PutIntoGrows(d.tasks, prior, task);
    EffectsOnly(m, cap);
    GrowthIsExplained(d, m, {}, cap, reply);
  }

  lemma CreationIsExplained(d: Disk, cap: Capacity, task: StoredTask, e: Effect, reply: StoreReply)
    requires Good(d, cap) && Room(d) && !HasTask(d.tasks, task.taskId)
    requires ValidStoredTask(task) && ValidEffect(e) && e.taskId == task.taskId && e.kind != ProductEffect
    requires !IsProductKey(e.key) && !HasEffect(d.outbox, e.key)
    ensures Explained(d, Save(d, PutTask(d, task, e), cap, reply).disk, cap)
  {
    PutTaskIsSound(d, task, e);
    AdditionIsExplained(d, PutTask(d, task, e), cap, reply);
  }

  lemma SaveTaskIsExplained(d: Disk, cap: Capacity, task: StoredTask, e: Effect)
    requires Good(d, cap) && Room(d)
    requires
      var prior := FindTask(d.tasks, task.taskId);
      prior.Some? ==> TaskProgresses(prior.value, task)
    requires e.taskId == task.taskId && e.kind != ProductEffect && !IsProductKey(e.key) && SafeVersion(e.journalVersion)
    requires e.taskVersion == task.version && (e.kind == TaskProjected ==> e.journalVersion.Some?)
    ensures Explained(d, SaveTask(d, cap, task, e).disk, cap)
  {
    NothingIsExplained(d, cap);
    var prior := FindTask(d.tasks, task.taskId);
    if ValidStoredTask(task) && !HasEffect(d.outbox, e.key) {
      if prior.Some? {
        ReplacementIsExplained(d, cap, prior.value, task, e, Stored(task));
      } else {
        CreationIsExplained(d, cap, task, e, Stored(task));
      }
    }
  }

  lemma AllowedIsProgress(t: StoredTask, next: StoredTask)
    requires ProjectionAllowed(t, next) && next.version == t.version + 1
    ensures TaskProgresses(t, next)
  {
  }

  lemma CompareAndSwapIsExplained(
    d: Disk, cap: Capacity, taskId: Id, expected: int, input: StoredTask, effect: EffectInput, now: int)
    requires Good(d, cap) && Room(d) && !IsProductKey(effect.key)
    ensures Explained(d, CompareAndSwap(d, cap, taskId, expected, input, effect, now).disk, cap)
  {
    NothingIsExplained(d, cap);
    var current := FindTask(d.tasks, taskId);
    var task := SwappedTask(current, taskId, input);
    var e := ProjectedEffect(effect, task.version, now);
    if MayProject(current, task, e) {
      if current.Some? { AllowedIsProgress(current.value, task); }
      SaveTaskIsExplained(d, cap, task, e);
    }
  }

  /** What a product mutation leaves of a task. */
  lemma MutationKeeps(t: StoredTask, m: ProductMutation)
    requires ParsableMutation(m) && ApplyProductMutation(t, m).Ok?
    ensures
      var next := ApplyProductMutation(t, m).value;
      next == t.(sync := next.sync, result := next.result, outputs := next.outputs, context := next.context,
                 lastSyncError := next.lastSyncError, updatedAt := next.updatedAt)
  {
  }

  lemma MutationIsProgress(t: StoredTask, m: ProductMutation)
    requires ParsableMutation(m) && Mutated(t, m).Ok?
    ensures TaskProgresses(t, Mutated(t, m).value) && Mutated(t, m).value.taskId == t.taskId
  {
    MutationKeeps(t, m);
  }

  lemma MutateTaskIsExplained(
    d: Disk, cap: Capacity, taskId: Id, expected: int, m: ProductMutation, key: EffectKey, now: int)
    requires Good(d, cap) && Room(d) && !IsProductKey(key)
    ensures Explained(d, MutateTask(d, cap, taskId, expected, m, key, now).disk, cap)
  {
    NothingIsExplained(d, cap);
    var current := FindTask(d.tasks, taskId);
    if current.Some? && ParsableMutation(m) && Mutated(current.value, m).Ok? {
      MutationIsProgress(current.value, m);
      var task := Mutated(current.value, m).value;
      SaveTaskIsExplained(d, cap, task, Effect(key, TaskMutated, taskId, None, task.version, now));
    }
  }
}
