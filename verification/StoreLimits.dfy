/** What an undisciplined use of a full store leads to: operations whose compaction forgets too
    much, and exactly when. */
module StoreLimits {
  import opened Prelude
  import opened Lists
  import opened TaskContract
  import opened TaskStore
  import opened StoreGate
  import opened StoreSteps

  // ---- One entry too many -----------------------------------------------------------------------------------

  lemma InboxOverflow(m: Disk, cap: Capacity, i: Item)
    requires |m.tasks| <= cap.maxTasks && |m.outbox| <= cap.maxEffects && |m.inbox| == cap.maxEffects + 1
    requires InboxCandidate(m) == Some(i)
    ensures Compact(m, cap) == DropItem(m, i) && Fits(DropItem(m, i), cap)
  {
    assert CompactOutbox(m, cap) == m;
    assert CompactInbox(m, cap) == DropItem(m, i);
  }

  lemma OutboxOverflow(m: Disk, cap: Capacity, e: Effect)
    requires |m.tasks| <= cap.maxTasks && |m.outbox| == cap.maxEffects + 1 && |m.inbox| <= cap.maxEffects
    requires OutboxCandidate(m.outbox, m.inbox) == Some(e)
    ensures Compact(m, cap) == DropEffect(m, e) && Fits(DropEffect(m, e), cap)
  {
    assert HasEffect(m.outbox, e.key);
    assert CompactOutbox(m, cap) == DropEffect(m, e);
  }

  lemma SameMembersSoundAlike(x: Disk, w: Disk)
    requires Sound(x) && w.outbox == x.outbox
    requires forall t :: t in w.tasks <==> t in x.tasks
    requires forall i :: i in w.inbox <==> i in x.inbox
    requires Unique(w.tasks, TaskKey) && Unique(w.inbox, SlotOf)
    ensures Sound(w)
  {
    forall id | HasTask(x.tasks, id) ensures HasTask(w.tasks, id) {
      var t :| t in x.tasks && t.taskId == id;
      assert t in w.tasks;
    }
  }

  /** `w` is `x` as it is written: sorted, under the next revision. */
  ghost predicate WrittenAs(x: Disk, w: Disk) {
    && w.revision == x.revision + 1 && w.outbox == x.outbox && |w.tasks| == |x.tasks| && |w.inbox| == |x.inbox|
    && (forall t :: t in w.tasks <==> t in x.tasks) && (forall i :: i in w.inbox <==> i in x.inbox)
    && Unique(w.tasks, TaskKey) && Unique(w.inbox, SlotOf)
  }

  lemma SavedAs(d: Disk, m: Disk, x: Disk, cap: Capacity, reply: StoreReply)
    requires x == Compact(m, cap) && Fits(x, cap) && Unique(x.tasks, TaskKey) && Unique(x.inbox, SlotOf)
    ensures WrittenAs(x, Save(d, m, cap, reply).disk)
  {
    SortUnique(x.tasks, TaskBefore, TaskKey);
    SortUnique(x.inbox, ItemBefore, SlotOf);
  }

  lemma ReadsAlike(x: Disk, w: Disk, cap: Capacity)
    requires WrittenAs(x, w) && Fits(x, cap) && Unique(x.tasks, TaskKey) && Unique(x.inbox, SlotOf)
    requires 0 <= x.revision < MAX_SAFE_INTEGER
    ensures Readable(w, cap) <==> Sound(x)
  {
    if Sound(x) { SameMembersSoundAlike(x, w); }
    if Sound(w) { SameMembersSoundAlike(w, x); }
  }

  // ---- A claim in a full inbox ---------------------------------------------------------------------------------

  /** The store with the claim that `ClaimOutbox` grants, before compaction. */
  function Claimed(d: Disk, consumer: Id, key: EffectKey, token: Id, now: int, leaseMs: int): Disk
    requires FindEffect(d.outbox, key).Some?
  {
    var item := FindItem(d.inbox, Slot(consumer, key));
    Disk(d.revision, d.tasks, d.outbox,
         PutItem(d.inbox, NewClaim(consumer, FindEffect(d.outbox, key).value.taskId, key, item, token, now + leaseMs), item.Some?))
  }

  /** The claim is granted to a consumer that is new to the effect, and finds the inbox full. */
  ghost predicate ClaimOverflows(d: Disk, cap: Capacity, consumer: Id, key: EffectKey, now: int) {
    && Readable(d, cap) && d.revision < MAX_SAFE_INTEGER && |d.inbox| == cap.maxEffects
    && FindEffect(d.outbox, key).Some? && FindItem(d.inbox, Slot(consumer, key)).None?
  }

  lemma ClaimIsMade(d: Disk, cap: Capacity, consumer: Id, key: EffectKey, token: Id, now: int, leaseMs: int, claimed: Item)
    requires FindEffect(d.outbox, key).Some? && FindItem(d.inbox, Slot(consumer, key)).None? && ValidLease(leaseMs)
    requires claimed == NewClaim(consumer, FindEffect(d.outbox, key).value.taskId, key, None, token, now + leaseMs)
    ensures ClaimOutbox(d, cap, consumer, key, token, now, leaseMs) == SaveClaim(d, cap, d.outbox, claimed, false)
    ensures Claimed(d, consumer, key, token, now, leaseMs) == Disk(d.revision, d.tasks, d.outbox, PutItem(d.inbox, claimed, false))
  {
  }

  lemma SaveOfClaim(d: Disk, m: Disk, cap: Capacity, claimed: Item, reply: StoreReply)
    requires claimed.delivery.Leased? && m == Disk(d.revision, d.tasks, d.outbox, PutItem(d.inbox, claimed, false))
    requires reply == LeaseGranted(claimed.delivery.token, claimed.delivery.expiresAt, claimed.fence)
    ensures SaveClaim(d, cap, d.outbox, claimed, false) == Save(d, m, cap, reply)
  {
  }

  lemma ClaimIsSaved(
    d: Disk, m: Disk, cap: Capacity, consumer: Id, key: EffectKey, token: Id, now: int, leaseMs: int, o: StoreOutcome)
    returns (reply: StoreReply)
    requires FindEffect(d.outbox, key).Some? && FindItem(d.inbox, Slot(consumer, key)).None? && ValidLease(leaseMs)
    requires o == ClaimOutbox(d, cap, consumer, key, token, now, leaseMs)
    requires m == Claimed(d, consumer, key, token, now, leaseMs)
    ensures o == Save(d, m, cap, reply)
  {
    var claimed := NewClaim(consumer, FindEffect(d.outbox, key).value.taskId, key, None, token, now + leaseMs);
    reply := LeaseGranted(claimed.delivery.token, claimed.delivery.expiresAt, claimed.fence);
    ClaimIsMade(d, cap, consumer, key, token, now, leaseMs, claimed);
    SaveOfClaim(d, m, cap, claimed, reply);
  }

  lemma {:induction false} ClaimedIsSound(d: Disk, cap: Capacity, consumer: Id, key: EffectKey, token: Id, now: int, leaseMs: int)
    requires ClaimOverflows(d, cap, consumer, key, now)
    ensures
      var m := Claimed(d, consumer, key, token, now, leaseMs);
      && Sound(m) && |m.inbox| == cap.maxEffects + 1
      && (forall i :: i in d.inbox ==> i in m.inbox)
      && (forall i :: i in m.inbox ==> i in d.inbox || (i.delivery.Leased? && SlotOf(i) == Slot(consumer, key)))
  {
    var effect := FindEffect(d.outbox, key).value;
    var claimed := NewClaim(consumer, effect.taskId, key, None, token, now + leaseMs);
    AppendUnique(d.inbox, SlotOf, claimed);
    forall e | e in d.outbox && e.key == key ensures e == effect { FindsEffect(d.outbox, e); }
    ClaimIsSound(d, d.outbox, d.inbox + [claimed], claimed);
  }

  lemma {:induction false} ForgottenIsUnique(m: Disk, i: Item)
    requires Sound(m)
    ensures Unique(DropItem(m, i).tasks, TaskKey) && Unique(DropItem(m, i).inbox, SlotOf)
  {
    FilterUnique(m.inbox, (j: Item) => j != i, SlotOf);
  }

  lemma ForgetsOne(d: Disk, m: Disk, cap: Capacity, i: Item, reply: StoreReply)
    requires Sound(m) && |m.tasks| <= cap.maxTasks && |m.outbox| <= cap.maxEffects && |m.inbox| == cap.maxEffects + 1
    requires InboxCandidate(m) == Some(i)
    ensures WrittenAs(DropItem(m, i), Save(d, m, cap, reply).disk)
    ensures 0 <= m.revision < MAX_SAFE_INTEGER ==> (Readable(Save(d, m, cap, reply).disk, cap) <==> Sound(DropItem(m, i)))
  {
    InboxOverflow(m, cap, i);
    ForgottenIsUnique(m, i);
    SavedAs(d, m, DropItem(m, i), cap, reply);
    if 0 <= m.revision < MAX_SAFE_INTEGER {
      ReadsAlike(DropItem(m, i), Save(d, m, cap, reply).disk, cap);
    }
  }

  /** A claim that finds the inbox full forgets a delivered one, `i`. What it writes can be read
      again exactly when the forgotten delivery was the only one of its effect, unless that is a
      product effect: an effect without product key must not have two consumers. */
  lemma ClaimStaysReadableExactly(
    d: Disk, cap: Capacity, consumer: Id, key: EffectKey, token: Id, now: int, leaseMs: int, i: Item)
    requires ClaimOverflows(d, cap, consumer, key, now) && ValidLease(leaseMs) && !IsProductKey(i.key)
    requires InboxCandidate(Claimed(d, consumer, key, token, now, leaseMs)) == Some(i)
    ensures
      Readable(ClaimOutbox(d, cap, consumer, key, token, now, leaseMs).disk, cap) <==>
        forall j :: j in Claimed(d, consumer, key, token, now, leaseMs).inbox && j.key == i.key ==> j == i
  {
    var m, o := Claimed(d, consumer, key, token, now, leaseMs), ClaimOutbox(d, cap, consumer, key, token, now, leaseMs);
    ClaimedIsSound(d, cap, consumer, key, token, now, leaseMs);
    var reply := ClaimIsSaved(d, m, cap, consumer, key, token, now, leaseMs, o);
    ForgetsOne(d, m, cap, i, reply);
    DropItemExactly(m, i);
  }

  lemma {:induction false} OthersAreKept(d: Disk, w: Disk, i: Item)
    requires Unique(d.inbox, SlotOf) && Unique(w.inbox, SlotOf) && i in d.inbox && i.delivery.Released?
    requires forall j :: j in d.inbox && j != i ==> j in w.inbox
    requires i !in w.inbox && forall j :: j in w.inbox ==> SlotOf(j) != SlotOf(i)
    ensures InboxProgresses(d, w.inbox)
  {
    forall j | j in d.inbox && j != i ensures FindItem(w.inbox, SlotOf(j)) == Some(j) {
      FindsItem(w.inbox, j);
    }
    forall j | j in d.inbox ensures j == i || ItemProgresses(j, j) {
    }
  }

  /** When the forgotten delivery was released, its effect goes undelivered. Recovery accepts what
      the claim writes, for an effect that is no product effect, exactly when its task is deleted:
      only deliveries of product effects may be released. */
  lemma ClaimIsExplainedExactly(
    d: Disk, cap: Capacity, consumer: Id, key: EffectKey, token: Id, now: int, leaseMs: int, i: Item, e: Effect)
    requires ClaimOverflows(d, cap, consumer, key, now) && ValidLease(leaseMs) && i in d.inbox && i.delivery.Released?
    requires InboxCandidate(Claimed(d, consumer, key, token, now, leaseMs)) == Some(i)
    requires e in d.outbox && e.key == i.key && e.kind != ProductEffect
    ensures Gate(d, ClaimOutbox(d, cap, consumer, key, token, now, leaseMs).disk) <==> IsDeleted(d.tasks, e.taskId)
  {
    var m, o := Claimed(d, consumer, key, token, now, leaseMs), ClaimOutbox(d, cap, consumer, key, token, now, leaseMs);
    ClaimedIsSound(d, cap, consumer, key, token, now, leaseMs);
    var reply := ClaimIsSaved(d, m, cap, consumer, key, token, now, leaseMs, o);
    ForgetsOne(d, m, cap, i, reply);
    ForgottenIsExplainedExactly(d, m, o.disk, i, e);
  }

  lemma ForgottenIsExplainedExactly(d: Disk, m: Disk, w: Disk, i: Item, e: Effect)
    requires Sound(d) && Sound(m) && WrittenAs(DropItem(m, i), w) && m.revision == d.revision && m.outbox == d.outbox
    requires m.tasks == d.tasks && forall j :: j in d.inbox ==> j in m.inbox
    requires i in d.inbox && i.delivery.Released? && e in d.outbox && e.key == i.key && e.kind != ProductEffect
    ensures Gate(d, w) <==> IsDeleted(d.tasks, e.taskId)
  {
    SortedTasksPassGate(d, w.tasks);
    forall j | j in w.inbox ensures SlotOf(j) != SlotOf(i) {
      if SlotOf(j) == SlotOf(i) { UniqueMember(m.inbox, SlotOf, i, j); }
    }
    OthersAreKept(d, w, i);
    ReleasedEffectExactly(d, i, e);
  }

  // ---- A task write with a full outbox ----------------------------------------------------------------------------

  /** A projection or a mutation that finds the outbox full drops a product effect, `c`. What it
      writes can be read again exactly when the key of that effect says that its deliveries may
      stand alone, or it has none: a product effect must have a product key. */
  lemma TaskWriteStaysReadableExactly(d: Disk, cap: Capacity, task: StoredTask, e: Effect, c: Effect)
    requires Readable(d, cap) && d.revision < MAX_SAFE_INTEGER && |d.outbox| == cap.maxEffects
    requires HasTask(d.tasks, task.taskId) && ValidStoredTask(task)
    requires ValidEffect(e) && e.taskId == task.taskId && !HasEffect(d.outbox, e.key)
    requires forall i :: i in d.inbox && i.key == e.key ==> i.taskId == e.taskId
    requires OutboxCandidate(d.outbox + [e], d.inbox) == Some(c) && c.kind == ProductEffect
    ensures Readable(SaveTask(d, cap, task, e).disk, cap) <==> IsProductKey(c.key) || forall i :: i in d.inbox ==> i.key != c.key
  {
    var m := PutTask(d, task, e);
    PutTaskIsSound(d, task, e);
    OutboxOverflow(m, cap, c);
    SavedAs(d, m, DropEffect(m, c), cap, Stored(task));
    ReadsAlike(DropEffect(m, c), SaveTask(d, cap, task, e).disk, cap);
    DropProductEffectExactly(m, c);
  }

  lemma {:induction false} PutTaskIsSound(d: Disk, task: StoredTask, e: Effect)
    requires Sound(d) && HasTask(d.tasks, task.taskId) && ValidStoredTask(task)
    requires ValidEffect(e) && e.taskId == task.taskId && !HasEffect(d.outbox, e.key)
    requires forall i :: i in d.inbox && i.key == e.key ==> i.taskId == e.taskId
    ensures Sound(PutTask(d, task, e)) && |PutTask(d, task, e).tasks| == |d.tasks|
  {
    PutUnique(d.tasks, TaskKey, task);
    AppendUnique(d.outbox, EffectKeyOf, e);
    PutKeepsTasks(d.tasks, task);
    LongerOutboxKeepsEffects(d.outbox, e);
    LikewiseSound(d, PutTask(d, task, e), task, e);
  }

  lemma LikewiseSound(d: Disk, m: Disk, task: StoredTask, e: Effect)
    requires Sound(d) && Unique(m.tasks, TaskKey) && Unique(m.outbox, EffectKeyOf) && m.inbox == d.inbox
    requires forall t :: t in m.tasks ==> t in d.tasks || t == task
    requires forall f :: f in m.outbox ==> f in d.outbox || f == e
    requires forall id :: HasTask(d.tasks, id) ==> HasTask(m.tasks, id)
    requires forall key :: HasEffect(d.outbox, key) ==> HasEffect(m.outbox, key)
    requires ValidStoredTask(task) && ValidEffect(e) && HasTask(d.tasks, e.taskId)
    requires forall i :: i in d.inbox && i.key == e.key ==> i.taskId == e.taskId
    ensures Sound(m)
  {
  }

  lemma {:induction false} LongerOutboxKeepsEffects(outbox: seq<Effect>, e: Effect)
    ensures forall key :: HasEffect(outbox, key) ==> HasEffect(outbox + [e], key)
  {
    forall key | HasEffect(outbox, key) ensures HasEffect(outbox + [e], key) {
      var f :| f in outbox && f.key == key;
      assert f in outbox + [e];
    }
  }

  lemma {:induction false} PutKeepsTasks(tasks: seq<StoredTask>, task: StoredTask)
    requires HasTask(tasks, task.taskId)
    ensures forall id :: HasTask(tasks, id) ==> HasTask(PutInto(tasks, task), id)
  {
    forall id | HasTask(tasks, id) ensures HasTask(PutInto(tasks, task), id) {
      var t :| t in tasks && t.taskId == id;
      assert t in PutInto(tasks, task) || task in PutInto(tasks, task);
    }
  }
}
