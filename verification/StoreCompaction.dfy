/** In which order compaction drops things, and when it gives up. */
module StoreCompaction {
  import opened Prelude
  import opened Lists
  import opened TaskContract
  import opened TaskStore

  /** A released delivery is forgotten before a completed one, and as long as there is anything that
      may be forgotten something is. */
  lemma InboxCandidateExactly(d: Disk)
    ensures InboxCandidate(d).None? <==>
      forall i :: i in d.inbox ==> !i.delivery.Released? && !Forgettable(d.tasks, d.outbox, i)
    ensures (exists i :: i in d.inbox && i.delivery.Released?) ==>
      InboxCandidate(d).Some? && InboxCandidate(d).value.delivery.Released?
  {
  }

  /** Which completed deliveries may be forgotten: those of ordinary effects at any time, and those of
      product effects, whose results they remember, once their task is deleted. */
  lemma {:induction false} ForgettableExactly(tasks: seq<StoredTask>, outbox: seq<Effect>, i: Item)
    requires Unique(tasks, TaskKey) && Unique(outbox, EffectKeyOf) && HasTask(tasks, i.taskId)
    ensures Forgettable(tasks, outbox, i) <==>
      && i.delivery.Completed?
      && (|| IsDeleted(tasks, i.taskId)
          || (exists e :: e in outbox && e.key == i.key && e.kind != ProductEffect)
          || (i.key.space == OtherSpace && !HasEffect(outbox, i.key)))
  {
    var t :| t in tasks && t.taskId == i.taskId;
    FindsTask(tasks, t);
    forall u | u in tasks && u.taskId == i.taskId ensures u == t {
      UniqueMember(tasks, TaskKey, t, u);
    }
    forall e | e in outbox && e.key == i.key ensures FindEffect(outbox, i.key) == Some(e) {
      FindsEffect(outbox, e);
    }
  }

  /** A product effect is dropped before one that only was delivered. */
  lemma OutboxCandidateExactly(outbox: seq<Effect>, inbox: seq<Item>)
    ensures OutboxCandidate(outbox, inbox).None? <==>
      forall e :: e in outbox ==> e.kind != ProductEffect && !AllDelivered(inbox, e.key)
    ensures (exists e :: e in outbox && e.kind == ProductEffect) ==>
      OutboxCandidate(outbox, inbox).Some? && OutboxCandidate(outbox, inbox).value.kind == ProductEffect
  {
  }

  /** Compaction leaves an outbox that fits alone, and gives up on another one only when nothing is
      left in it that may be dropped. */
  lemma {:induction false} OutboxGivesUpExactly(d: Disk, cap: Capacity)
    ensures
      var r := CompactOutbox(d, cap);
      && (|d.outbox| <= cap.maxEffects ==> r == d)
      && (|r.outbox| > cap.maxEffects ==> OutboxCandidate(r.outbox, r.inbox).None?)
    decreases |d.outbox|
  {
    hide OutboxCandidate, DropEffect;
    var e := OutboxCandidate(d.outbox, d.inbox);
    if |d.outbox| > cap.maxEffects && e.Some? {
      DropShrinks(d, e.value);
      OutboxGivesUpExactly(DropEffect(d, e.value), cap);
    }
  }

  lemma DropShrinks(d: Disk, e: Effect)
    requires e in d.outbox
    ensures |DropEffect(d, e).outbox| < |d.outbox|
  {
    assert HasEffect(d.outbox, e.key);
  }

  /** The same for the inbox. */
  lemma {:induction false} InboxGivesUpExactly(d: Disk, cap: Capacity)
    ensures
      var r := CompactInbox(d, cap);
      && (|d.inbox| <= cap.maxEffects ==> r == d)
      && (|r.inbox| > cap.maxEffects ==> InboxCandidate(r).None?)
    decreases |d.inbox|
  {
    hide InboxCandidate;
    var i := InboxCandidate(d);
    if |d.inbox| > cap.maxEffects && i.Some? {
      InboxGivesUpExactly(DropItem(d, i.value), cap);
    }
  }

  /** The deleted tasks are considered in the order of their last change. */
  lemma OldestComeFirst(tasks: seq<StoredTask>)
    ensures Ordered(OldestDeleted(tasks), ChangedBefore)
  {
    assert IsOrder(ChangedBefore);
    SortOrders(Filter(tasks, (t: StoredTask) => t.visibility == DeletedTask), ChangedBefore);
  }

  /** The task is one of the first `n` doomed ones and no delivery of it is pending. */
  predicate Dropped(d: Disk, doomed: seq<StoredTask>, n: nat, taskId: Id)
    requires n <= |doomed|
  {
    !AwaitsDelivery(d.inbox, taskId) && exists j :: 0 <= j < n && doomed[j].taskId == taskId
  }

  /** The first `n` doomed tasks, as far as no delivery of them is pending, are what was dropped. */
  ghost predicate DroppedFirst(d: Disk, doomed: seq<StoredTask>, n: nat, r: Disk)
    requires n <= |doomed|
  {
    forall t :: t in r.tasks <==> t in d.tasks && !Dropped(d, doomed, n, t.taskId)
  }

  lemma DropFrames(d: Disk, taskId: Id, other: Id)
    requires other != taskId
    ensures AwaitsDelivery(DropTask(d, taskId).inbox, other) <==> AwaitsDelivery(d.inbox, other)
  {
    forall i | i in d.inbox && i.taskId == other ensures i in DropTask(d, taskId).inbox {
    }
  }

  /** Compaction of the tasks drops deleted ones from the first on, passing over those with a pending
      delivery, stops as soon as the rest fits, and gives up only when every deleted task that is left
      has a pending delivery. */
  lemma {:induction false} TasksDropInOrder(d: Disk, doomed: seq<StoredTask>, cap: Capacity) returns (n: nat)
    ensures n <= |doomed| && DroppedFirst(d, doomed, n, CompactTasks(d, doomed, cap))
    ensures |CompactTasks(d, doomed, cap).tasks| > cap.maxTasks ==> n == |doomed|
    ensures |d.tasks| <= cap.maxTasks ==> n == 0
    decreases |doomed|
  {
    if doomed == [] || |d.tasks| <= cap.maxTasks {
      n := 0;
    } else {
      var first, rest := doomed[0].taskId, doomed[1..];
      assert doomed == [doomed[0]] + rest;
      if AwaitsDelivery(d.inbox, first) {
        var m := TasksDropInOrder(d, rest, cap);
        PassedOver(d, doomed, m);
        n := m + 1;
      } else {
        var m := TasksDropInOrder(DropTask(d, first), rest, cap);
        DroppedToo(d, doomed, m, CompactTasks(DropTask(d, first), rest, cap));
        n := m + 1;
      }
    }
  }

  lemma PassedOver(d: Disk, doomed: seq<StoredTask>, m: nat)
    requires doomed != [] && m < |doomed| && AwaitsDelivery(d.inbox, doomed[0].taskId)
    ensures forall id :: Dropped(d, doomed, m + 1, id) <==> Dropped(d, doomed[1..], m, id)
  {
    forall id ensures Dropped(d, doomed, m + 1, id) <==> Dropped(d, doomed[1..], m, id) {
      if Dropped(d, doomed, m + 1, id) {
        var j :| 0 <= j < m + 1 && doomed[j].taskId == id;
        assert doomed[1..][j - 1].taskId == id;
      }
      if Dropped(d, doomed[1..], m, id) {
        var j :| 0 <= j < m && doomed[1..][j].taskId == id;
        assert doomed[j + 1].taskId == id;
      }
    }
  }

  lemma DroppedToo(d: Disk, doomed: seq<StoredTask>, m: nat, r: Disk)
    requires doomed != [] && m < |doomed| && !AwaitsDelivery(d.inbox, doomed[0].taskId)
    requires DroppedFirst(DropTask(d, doomed[0].taskId), doomed[1..], m, r)
    ensures DroppedFirst(d, doomed, m + 1, r)
  {
    var first, x := doomed[0].taskId, DropTask(d, doomed[0].taskId);
    forall id | id != first ensures Dropped(d, doomed, m + 1, id) <==> Dropped(x, doomed[1..], m, id) {
      DropFrames(d, first, id);
      if Dropped(d, doomed, m + 1, id) {
        var j :| 0 <= j < m + 1 && doomed[j].taskId == id;
        assert doomed[1..][j - 1].taskId == id;
      }
      if Dropped(x, doomed[1..], m, id) {
        var j :| 0 <= j < m && doomed[1..][j].taskId == id;
        assert doomed[j + 1].taskId == id;
      }
    }
    assert Dropped(d, doomed, m + 1, first);
  }
}
