/** Compaction and the recovery gate of the product store.

    Recovery compares a left-over backup with the primary beside it and refuses any change it
    cannot explain. The operations and the compaction were written without it; these lemmas say
    that what they write is always explained. */
module StoreGate {
  import opened Prelude
  import opened Lists
  import opened TaskContract
  import opened TaskStore

  // ---- The gate --------------------------------------------------------------------------------------

  predicate TaskProgresses(p: StoredTask, q: StoredTask) {
    && q.clientOperationId == p.clientOperationId
    && q.requestHash == p.requestHash
    && q.recordId == p.recordId
    && !Resurrected(p.visibility, q.visibility)
    && q.version >= p.version
    && q.journalVersion >= p.journalVersion
    && (p.account.Some? ==> q.account == p.account)
    && (q.version == p.version ==> q == p)
  }

  /** `inboxProgresses`. */
  predicate ItemProgresses(p: Item, q: Item) {
    && p.consumer == q.consumer && p.taskId == q.taskId && p.key == q.key
    && match p.delivery
       case Completed(_, _) => q == p
       case Released(_) =>
         (match q.delivery
          case Completed(_, _) => q.fence >= p.fence
          case Released(_) => q == p
          case Leased(_, _) => q.fence > p.fence)
       case Leased(token, expiresAt) =>
         match q.delivery
         case Completed(_, _) => q.fence >= p.fence
         case Released(_) => q.fence == p.fence
         case Leased(nextToken, nextExpiry) =>
           q.fence > p.fence || (q.fence == p.fence && nextToken == token && nextExpiry >= expiresAt)
  }

  predicate TasksProgress(previous: seq<StoredTask>, current: seq<StoredTask>) {
    forall p :: p in previous ==>
      var q := FindTask(current, p.taskId);
      if q.None? then p.visibility == DeletedTask else TaskProgresses(p, q.value)
  }

  predicate EffectExplained(previous: Disk, e: Effect) {
    e.kind == ProductEffect || IsDeleted(previous.tasks, e.taskId) || AllDelivered(previous.inbox, e.key)
  }

  predicate OutboxProgresses(previous: Disk, outbox: seq<Effect>) {
    forall e :: e in previous.outbox ==>
      var f := FindEffect(outbox, e.key);
      f == Some(e) || (f.None? && EffectExplained(previous, e))
  }

  predicate KnownProductEffect(outbox: seq<Effect>, key: EffectKey) {
    exists e :: e in outbox && e.key == key && e.kind == ProductEffect
  }

  predicate ItemExplained(previous: Disk, i: Item) {
    || i.delivery.Released?
    || IsDeleted(previous.tasks, i.taskId)
    || (i.delivery.Completed? && !KnownProductEffect(previous.outbox, i.key))
  }

  predicate InboxProgresses(previous: Disk, inbox: seq<Item>) {
    forall i :: i in previous.inbox ==>
      var j := FindItem(inbox, SlotOf(i));
      if j.None? then ItemExplained(previous, i) else ItemProgresses(i, j.value)
  }

  /** `assertStoreProgression`. */
  predicate Gate(previous: Disk, current: Disk) {
    && previous.revision <= current.revision
    && (if previous.revision == current.revision then current == previous
        else
          && TasksProgress(previous.tasks, current.tasks)
          && OutboxProgresses(previous, current.outbox)
          && InboxProgresses(previous, current.inbox))
  }

  // ---- Disciplined use -------------------------------------------------------------------------------

  /** Product effects are exactly those with a product key. */
  ghost predicate KindsMatch(outbox: seq<Effect>) {
    forall e :: e in outbox ==> (e.kind == ProductEffect <==> IsProductKey(e.key))
  }

  /** An effect without product key has one consumer. */
  ghost predicate Lone(inbox: seq<Item>) {
    forall i, j :: i in inbox && j in inbox && i.key == j.key && !IsProductKey(i.key) ==> i == j
  }

  /** Only deliveries of product effects are ever released. */
  ghost predicate ReleasedAreProduct(inbox: seq<Item>) {
    forall i :: i in inbox && i.delivery.Released? ==> IsProductKey(i.key)
  }

  ghost predicate Disciplined(d: Disk) {
    KindsMatch(d.outbox) && Lone(d.inbox) && ReleasedAreProduct(d.inbox)
  }

  ghost predicate Sound(d: Disk) {
    TasksOk(d.tasks) && OutboxOk(d.tasks, d.outbox) && InboxOk(d.tasks, d.outbox, d.inbox)
  }

  // ---- What compaction may drop ------------------------------------------------------------------------

  ghost predicate LostTasks(m: Disk, x: Disk, gone: set<Id>) {
    && (forall t :: t in x.tasks ==> t in m.tasks)
    && (forall t :: t in m.tasks && t !in x.tasks ==> t.taskId in gone)
  }

  ghost predicate LostEffects(m: Disk, x: Disk, gone: set<Id>) {
    && (forall e :: e in x.outbox ==> e in m.outbox)
    && (forall e :: e in m.outbox && e !in x.outbox ==>
          e.kind == ProductEffect || e.taskId in gone || AllDelivered(m.inbox, e.key))
  }

  /** Never a pending delivery, and a completed product result only with its deleted task. */
  ghost predicate LostItems(m: Disk, x: Disk, gone: set<Id>) {
    && (forall i :: i in x.inbox ==> i in m.inbox)
    && (forall i :: i in m.inbox && i !in x.inbox ==>
          && !i.delivery.Leased?
          && (i.delivery.Released? || i.taskId in gone || !IsProductKey(i.key)))
  }

  /** An effect that is still there still has all its deliveries. */
  ghost predicate DeliveriesKept(m: Disk, x: Disk) {
    forall e, i :: e in x.outbox && i in m.inbox && i.key == e.key ==> i in x.inbox
  }

  ghost predicate Compacted(m: Disk, x: Disk, gone: set<Id>) {
    && x.revision == m.revision
    && LostTasks(m, x, gone)
    && LostEffects(m, x, gone)
    && LostItems(m, x, gone)
    && DeliveriesKept(m, x)
    && Sound(x)
    && Disciplined(x)
  }

  lemma CompactedRefl(m: Disk, gone: set<Id>)
    requires Sound(m) && Disciplined(m)
    ensures Compacted(m, m, gone)
  {
  }

  lemma DropTaskIsSound(x: Disk, id: Id)
    requires Sound(x)
    ensures Sound(DropTask(x, id))
  {
    var y := DropTask(x, id);
    FilterUnique(x.tasks, (t: StoredTask) => t.taskId != id, TaskKey);
    FilterUnique(x.outbox, (e: Effect) => e.taskId != id, EffectKeyOf);
    FilterUnique(x.inbox, (i: Item) => i.taskId != id, SlotOf);
    forall taskId | taskId != id && HasTask(x.tasks, taskId) ensures HasTask(y.tasks, taskId) {
      var t :| t in x.tasks && t.taskId == taskId;
      assert t in y.tasks;
    }
    forall i | i in y.inbox && !HasEffect(y.outbox, i.key) ensures !HasEffect(x.outbox, i.key) {
      assert forall e :: e in x.outbox && e.key == i.key ==> e in y.outbox;
    }
  }

  lemma DropTaskKeeps(m: Disk, x: Disk, gone: set<Id>, id: Id)
    requires Compacted(m, x, gone) && id in gone && !AwaitsDelivery(x.inbox, id)
    ensures Compacted(m, DropTask(x, id), gone)
  {
    DropTaskIsSound(x, id);
  }

  lemma {:induction false} WithoutEffectIsSound(x: Disk, key: EffectKey, inbox: seq<Item>)
    requires Sound(x) && Unique(inbox, SlotOf)
    requires forall i :: i in inbox ==> i in x.inbox && (i.key == key ==> IsProductKey(key))
    ensures Sound(Disk(x.revision, x.tasks, WithoutEffect(x.outbox, key), inbox))
  {
    var outbox := WithoutEffect(x.outbox, key);
    FilterUnique(x.outbox, (e: Effect) => e.key != key, EffectKeyOf);
    forall i | i in inbox && !HasEffect(outbox, i.key) ensures IsProductKey(i.key) {
      if HasEffect(x.outbox, i.key) {
        var e :| e in x.outbox && e.key == i.key;
        assert e.key != key ==> e in outbox;
      }
    }
  }

  lemma StillAllDelivered(m: Disk, x: Disk, e: Effect)
    requires (forall i :: i in x.inbox ==> i in m.inbox) && DeliveriesKept(m, x) && e in x.outbox
    requires AllDelivered(x.inbox, e.key)
    ensures AllDelivered(m.inbox, e.key)
  {
  }

  lemma DropEffectKeeps(m: Disk, x: Disk, gone: set<Id>, e: Effect)
    requires Compacted(m, x, gone) && e in x.outbox
    requires e.kind == ProductEffect || AllDelivered(x.inbox, e.key)
    ensures Compacted(m, DropEffect(x, e), gone)
  {
    var y := DropEffect(x, e);
    FilterUnique(x.inbox, (i: Item) => i.key != e.key, SlotOf);
    WithoutEffectIsSound(x, e.key, y.inbox);
    if e.kind != ProductEffect {
      StillAllDelivered(m, x, e);
    }
    forall f | f in m.outbox && f !in y.outbox
      ensures f.kind == ProductEffect || f.taskId in gone || AllDelivered(m.inbox, f.key)
    {
      if f in x.outbox { UniqueMember(x.outbox, EffectKeyOf, e, f); }
    }
  }

  /** A delivery that may be forgotten either belongs to a deleted task or is no product delivery. */
  lemma ForgettableKey(x: Disk, i: Item)
    requires Sound(x) && KindsMatch(x.outbox) && i in x.inbox && Forgettable(x.tasks, x.outbox, i)
    ensures IsDeleted(x.tasks, i.taskId) || !IsProductKey(i.key)
  {
  }

  lemma DropItemKeeps(m: Disk, x: Disk, gone: set<Id>, i: Item)
    requires Compacted(m, x, gone) && i in x.inbox && Disciplined(m)
    requires forall t :: t in m.tasks && t.visibility == DeletedTask ==> t.taskId in gone
    requires i.delivery.Released? || Forgettable(x.tasks, x.outbox, i)
    ensures Compacted(m, DropItem(x, i), gone)
  {
    var y := DropItem(x, i);
    FilterUnique(x.inbox, (j: Item) => j != i, SlotOf);
    if i.delivery.Completed? { ForgettableKey(x, i); }
    WithoutEffectIsSound(x, i.key, y.inbox);
    forall f | f in m.outbox && f !in y.outbox
      ensures f.kind == ProductEffect || f.taskId in gone || AllDelivered(m.inbox, f.key)
    {
      if f in x.outbox && !IsProductKey(i.key) {
        assert f.key == i.key && i in m.inbox;
      }
    }
  }

  lemma {:induction false} CompactOutboxKeeps(m: Disk, x: Disk, gone: set<Id>, cap: Capacity)
    requires Compacted(m, x, gone)
    ensures Compacted(m, CompactOutbox(x, cap), gone)
    decreases |x.outbox|
  {
    var e := OutboxCandidate(x.outbox, x.inbox);
    if |x.outbox| > cap.maxEffects && e.Some? {
      DropEffectKeeps(m, x, gone, e.value);
      CompactOutboxKeeps(m, DropEffect(x, e.value), gone, cap);
    }
  }

  lemma {:induction false} CompactInboxKeeps(m: Disk, x: Disk, gone: set<Id>, cap: Capacity)
    requires Compacted(m, x, gone) && Disciplined(m)
    requires forall t :: t in m.tasks && t.visibility == DeletedTask ==> t.taskId in gone
    ensures Compacted(m, CompactInbox(x, cap), gone)
    decreases |x.inbox|
  {
    var i := InboxCandidate(x);
    if |x.inbox| > cap.maxEffects && i.Some? {
      DropItemKeeps(m, x, gone, i.value);
      CompactInboxKeeps(m, DropItem(x, i.value), gone, cap);
    }
  }

  lemma {:induction false} CompactTasksKeeps(m: Disk, x: Disk, gone: set<Id>, doomed: seq<StoredTask>, cap: Capacity)
    requires Compacted(m, x, gone)
    requires forall t :: t in doomed ==> t.taskId in gone
    ensures Compacted(m, CompactTasks(x, doomed, cap), gone)
    decreases |doomed|
  {
    if doomed != [] && |x.tasks| > cap.maxTasks {
      assert doomed[0] in doomed;
      if AwaitsDelivery(x.inbox, doomed[0].taskId) {
        CompactTasksKeeps(m, x, gone, doomed[1..], cap);
      } else {
        DropTaskKeeps(m, x, gone, doomed[0].taskId);
        CompactTasksKeeps(m, DropTask(x, doomed[0].taskId), gone, doomed[1..], cap);
      }
    }
  }

  /** Compaction of a sound, disciplined store drops deleted tasks without pending deliveries,
      product effects, effects all of whose deliveries are completed, and settled deliveries; it
      never drops a pending delivery, nor the completed result of a product effect whose task is
      not deleted. */
  lemma CompactKeeps(m: Disk, gone: set<Id>, cap: Capacity)
    requires Sound(m) && Disciplined(m)
    requires forall t :: t in m.tasks && t.visibility == DeletedTask ==> t.taskId in gone
    ensures Compacted(m, Compact(m, cap), gone)
  {
    CompactedRefl(m, gone);
    CompactTasksKeeps(m, m, gone, OldestDeleted(m.tasks), cap);
    var a := CompactTasks(m, OldestDeleted(m.tasks), cap);
    CompactOutboxKeeps(m, a, gone, cap);
    var b := CompactOutbox(a, cap);
    CompactInboxKeeps(m, b, gone, cap);
    CompactOutboxKeeps(m, CompactInbox(b, cap), gone, cap);
  }

  // ---- Writes --------------------------------------------------------------------------------------------

  /** The image written is the compacted one, sorted, with the next revision. */
  lemma WrittenShape(m: Disk, cap: Capacity)
    requires Written(m, cap).Some? && Sound(Compact(m, cap)) && Disciplined(Compact(m, cap))
    ensures
      var x, w := Compact(m, cap), Written(m, cap).value;
      && w.revision == x.revision + 1
      && (forall t :: t in w.tasks <==> t in x.tasks)
      && w.outbox == x.outbox
      && (forall i :: i in w.inbox <==> i in x.inbox)
      && Fits(w, cap) && Sound(w) && Disciplined(w)
  {
    var x, w := Compact(m, cap), Written(m, cap).value;
    SortUnique(x.tasks, TaskBefore, TaskKey);
    SortUnique(x.inbox, ItemBefore, SlotOf);
    SameMembersSound(x, w);
  }

  /** The image written is sorted by task and by consumer and effect. */
  lemma WrittenIsSorted(m: Disk, cap: Capacity)
    requires Written(m, cap).Some?
    ensures Ordered(Written(m, cap).value.tasks, TaskBefore) && Ordered(Written(m, cap).value.inbox, ItemBefore)
  {
    SortOrders(Compact(m, cap).tasks, TaskBefore);
    SortOrders(Compact(m, cap).inbox, ItemBefore);
  }

  lemma SameMembersSound(x: Disk, w: Disk)
    requires Sound(x) && Disciplined(x) && w.outbox == x.outbox
    requires forall t :: t in w.tasks <==> t in x.tasks
    requires forall i :: i in w.inbox <==> i in x.inbox
    requires Unique(w.tasks, TaskKey) && Unique(w.inbox, SlotOf)
    ensures Sound(w) && Disciplined(w)
  {
    forall id | HasTask(x.tasks, id) ensures HasTask(w.tasks, id) {
      var t :| t in x.tasks && t.taskId == id;
      assert t in w.tasks;
    }
  }

  /** What an operation that adds something does to the image before it is compacted: tasks
      progress, nothing is removed, and the deliveries it touches are newly claimed. */
  ghost predicate TasksGrow(d: seq<StoredTask>, m: seq<StoredTask>) {
    forall t :: t in d ==> exists u :: u in m && u.taskId == t.taskId && TaskProgresses(t, u)
  }

  ghost predicate OutboxGrows(d: seq<Effect>, m: seq<Effect>) {
    forall e :: e in d ==> e in m
  }

  predicate Reclaims(i: Item, j: Item) {
    SlotOf(j) == SlotOf(i) && j.taskId == i.taskId && j.delivery.Leased? && j.fence > i.fence && !i.delivery.Completed?
  }

  ghost predicate InboxGrows(d: seq<Item>, m: seq<Item>) {
    && (forall i :: i in d && i !in m ==> exists j :: j in m && Reclaims(i, j))
    && (forall j :: j in m && j !in d ==> j.delivery.Leased?)
  }

  /** The tasks compaction may have dropped were deleted already, or are not known to `d`. */
  ghost predicate GoneBefore(d: seq<StoredTask>, gone: set<Id>) {
    forall t :: t in d && t.taskId in gone ==> t.visibility == DeletedTask
  }

  lemma {:induction false} TasksPassGate(d: Disk, m: Disk, x: Disk, tasks: seq<StoredTask>, gone: set<Id>)
    requires TasksGrow(d.tasks, m.tasks) && LostTasks(m, x, gone) && GoneBefore(d.tasks, gone)
    requires Unique(m.tasks, TaskKey)
    requires Unique(tasks, TaskKey) && forall t :: t in tasks <==> t in x.tasks
    ensures TasksProgress(d.tasks, tasks)
  {
    forall p | p in d.tasks
      ensures var q := FindTask(tasks, p.taskId);
              if q.None? then p.visibility == DeletedTask else TaskProgresses(p, q.value)
    {
      var u :| u in m.tasks && u.taskId == p.taskId && TaskProgresses(p, u);
      var q := FindTask(tasks, p.taskId);
      if q.Some? {
        UniqueMember(m.tasks, TaskKey, u, q.value);
      }
    }
  }

  lemma DeliveredBefore(d: Disk, m: Disk, e: Effect)
    requires InboxGrows(d.inbox, m.inbox) && AllDelivered(m.inbox, e.key)
    ensures AllDelivered(d.inbox, e.key)
  {
    var j :| j in m.inbox && j.key == e.key;
    assert j in d.inbox;
    forall i | i in d.inbox && i.key == e.key ensures i.delivery.Completed? {
      assert forall k :: k in m.inbox && Reclaims(i, k) ==> SlotOf(k).key == e.key;
    }
  }

  lemma OutboxPassesGate(d: Disk, m: Disk, x: Disk, gone: set<Id>)
    requires OutboxOk(d.tasks, d.outbox) && GoneBefore(d.tasks, gone)
    requires OutboxGrows(d.outbox, m.outbox) && InboxGrows(d.inbox, m.inbox) && LostEffects(m, x, gone)
    requires Unique(x.outbox, EffectKeyOf) && Unique(m.outbox, EffectKeyOf)
    ensures OutboxProgresses(d, x.outbox)
  {
    forall e | e in d.outbox
      ensures var f := FindEffect(x.outbox, e.key);
              f == Some(e) || (f.None? && EffectExplained(d, e))
    {
      if e in x.outbox {
        FindsEffect(x.outbox, e);
      } else {
        forall f | f in x.outbox ensures f.key != e.key {
          if f.key == e.key { UniqueMember(m.outbox, EffectKeyOf, e, f); }
        }
        if e.taskId in gone {
          var t :| t in d.tasks && t.taskId == e.taskId;
        } else if e.kind != ProductEffect {
          DeliveredBefore(d, m, e);
        }
      }
    }
  }

  lemma {:induction false} ItemPassesGate(d: Disk, m: Disk, x: Disk, inbox: seq<Item>, gone: set<Id>, i: Item)
    requires InboxOk(d.tasks, d.outbox, d.inbox) && KindsMatch(d.outbox) && GoneBefore(d.tasks, gone)
    requires InboxGrows(d.inbox, m.inbox) && LostItems(m, x, gone)
    requires Unique(m.inbox, SlotOf)
    requires Unique(inbox, SlotOf) && forall i :: i in inbox <==> i in x.inbox
    requires i in d.inbox
    ensures
      var j := FindItem(inbox, SlotOf(i));
      if j.None? then ItemExplained(d, i) else ItemProgresses(i, j.value)
  {
    var f := FindItem(inbox, SlotOf(i));
    if i in m.inbox {
      if f.Some? {
        UniqueMember(m.inbox, SlotOf, i, f.value);
      } else if i.taskId in gone {
        var t :| t in d.tasks && t.taskId == i.taskId;
      }
    } else {
      var j :| j in m.inbox && Reclaims(i, j);
      assert j in inbox;
      UniqueMember(m.inbox, SlotOf, j, f.value);
    }
  }

  lemma {:induction false} InboxPassesGate(d: Disk, m: Disk, x: Disk, inbox: seq<Item>, gone: set<Id>)
    requires InboxOk(d.tasks, d.outbox, d.inbox) && KindsMatch(d.outbox) && GoneBefore(d.tasks, gone)
    requires InboxGrows(d.inbox, m.inbox) && LostItems(m, x, gone)
    requires Unique(m.inbox, SlotOf)
    requires Unique(inbox, SlotOf) && forall i :: i in inbox <==> i in x.inbox
    ensures InboxProgresses(d, inbox)
  {
    forall i | i in d.inbox
      ensures var j := FindItem(inbox, SlotOf(i));
              if j.None? then ItemExplained(d, i) else ItemProgresses(i, j.value)
    {
      ItemPassesGate(d, m, x, inbox, gone, i);
    }
  }

  /** No pending delivery is dropped, and the result of a completed product effect is kept as it
      is until its task is deleted. */
  ghost predicate Remembers(d: Disk, w: Disk) {
    && (forall i :: i in d.inbox && i.delivery.Leased? ==> FindItem(w.inbox, SlotOf(i)).Some?)
    && (forall i :: i in d.inbox && i.delivery.Completed? && IsProductKey(i.key) && !IsDeleted(d.tasks, i.taskId) ==>
          i in w.inbox)
  }

  lemma GrowthRemembers(d: Disk, m: Disk, x: Disk, inbox: seq<Item>, gone: set<Id>)
    requires InboxOk(d.tasks, d.outbox, d.inbox) && GoneBefore(d.tasks, gone)
    requires InboxGrows(d.inbox, m.inbox) && LostItems(m, x, gone)
    requires forall i :: i in inbox <==> i in x.inbox
    ensures Remembers(d, Disk(0, [], [], inbox))
  {
    forall i | i in d.inbox && i.delivery.Leased? ensures FindItem(inbox, SlotOf(i)).Some? {
      if i !in m.inbox {
        var j :| j in m.inbox && Reclaims(i, j);
        assert j in inbox;
      } else {
        assert i in inbox;
      }
    }
    forall i | i in d.inbox && i.delivery.Completed? && IsProductKey(i.key) && !IsDeleted(d.tasks, i.taskId)
      ensures i in inbox
    {
      var t :| t in d.tasks && t.taskId == i.taskId;
      assert i in m.inbox;
    }
  }

  /** An operation that adds something, then compaction, then the write: always explained. */
  lemma GrowthPassesGate(d: Disk, m: Disk, gone: set<Id>, cap: Capacity)
    requires Sound(d) && Disciplined(d) && m.revision == d.revision
    requires TasksGrow(d.tasks, m.tasks) && OutboxGrows(d.outbox, m.outbox) && InboxGrows(d.inbox, m.inbox)
    requires Sound(m) && Compacted(m, Compact(m, cap), gone) && GoneBefore(d.tasks, gone)
    requires Written(m, cap).Some?
    ensures
      var w := Written(m, cap).value;
      w.revision == d.revision + 1 && Fits(w, cap) && Sound(w) && Disciplined(w) && Gate(d, w) && Remembers(d, w)
  {
    var x, w := Compact(m, cap), Written(m, cap).value;
    WrittenShape(m, cap);
    TasksPassGate(d, m, x, w.tasks, gone);
    OutboxPassesGate(d, m, x, gone);
    InboxPassesGate(d, m, x, w.inbox, gone);
    GrowthRemembers(d, m, x, w.inbox, gone);
  }

  // ---- Why the discipline is needed ------------------------------------------------------------------------

  /** Forgetting a delivery without product key takes its effect along. The store stays readable
      exactly when it was the only delivery of that effect. */
  lemma DropItemExactly(x: Disk, i: Item)
    requires Sound(x) && i in x.inbox && !IsProductKey(i.key)
    ensures Sound(DropItem(x, i)) <==> forall j :: j in x.inbox && j.key == i.key ==> j == i
  {
    var y := DropItem(x, i);
    if forall j :: j in x.inbox && j.key == i.key ==> j == i {
      FilterUnique(x.inbox, (j: Item) => j != i, SlotOf);
      WithoutEffectIsSound(x, i.key, y.inbox);
    } else {
      var j :| j in x.inbox && j.key == i.key && j != i;
      assert j in y.inbox && !HasEffect(y.outbox, j.key);
    }
  }

  /** Dropping a product effect keeps its deliveries. The store stays readable exactly when the
      key says that they may stand alone. */
  lemma DropProductEffectExactly(x: Disk, e: Effect)
    requires Sound(x) && e in x.outbox && e.kind == ProductEffect
    ensures Sound(DropEffect(x, e)) <==> IsProductKey(e.key) || forall i :: i in x.inbox ==> i.key != e.key
  {
    var y := DropEffect(x, e);
    if IsProductKey(e.key) || forall i :: i in x.inbox ==> i.key != e.key {
      WithoutEffectIsSound(x, e.key, x.inbox);
    } else {
      var i :| i in x.inbox && i.key == e.key;
      assert i in y.inbox && !HasEffect(y.outbox, i.key);
    }
  }

  /** Forgetting a released delivery drops its effect although nobody has completed it. Recovery
      accepts that, for an effect that is no product effect, exactly when its task is deleted. */
  lemma ReleasedEffectExactly(d: Disk, i: Item, e: Effect)
    requires Sound(d) && i in d.inbox && i.delivery.Released? && e in d.outbox && e.key == i.key && e.kind != ProductEffect
    ensures OutboxProgresses(d, DropItem(d, i).outbox) <==> IsDeleted(d.tasks, e.taskId)
  {
    var outbox := DropItem(d, i).outbox;
    FilterUnique(d.outbox, (f: Effect) => f.key != i.key, EffectKeyOf);
    forall f | f in d.outbox && f != e ensures FindEffect(outbox, f.key) == Some(f) {
      if f.key == e.key { UniqueMember(d.outbox, EffectKeyOf, e, f); }
      FindsEffect(outbox, f);
    }
  }
}
