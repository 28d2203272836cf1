/** The product store over whole runs: any interleaving of projections, product mutations, claims,
    renewals, completions, releases and the passing of time. */
module StoreRuns {
  import opened Prelude
  import opened Lists
  import opened TaskContract
  import opened TaskStore
  import opened StoreGate
  import opened StoreSteps

  /** The store, the clock, the lease tokens drawn so far, and what does not change. */
  datatype World = World(disk: Disk, now: int, tokens: set<Id>, cap: Capacity, leaseMs: int)

  datatype Action =
    | Elapse(ms: nat)
    | Project(taskId: Id, expected: int, task: StoredTask, effect: EffectInput)
    | Mutate(taskId: Id, expected: int, mutation: ProductMutation, key: EffectKey)
    | ClaimDelivery(consumer: Id, key: EffectKey, token: Id)
    | ClaimForProduct(consumer: Id, taskId: Id, key: EffectKey, token: Id)
    | Renew(consumer: Id, taskId: Id, key: EffectKey, token: Id, fence: int)
    | Complete(consumer: Id, taskId: Id, key: EffectKey, token: Id, fence: int, result: EffectResult)
    | Release(consumer: Id, taskId: Id, key: EffectKey, token: Id, fence: int)
    | CompleteDelivery(consumer: Id, key: EffectKey, token: Id)

  /** Disciplined callers: tasks write effects without product key; a product effect is claimed
      under a product key that names one task; any other effect has one consumer; only product
      effects are released; tokens are fresh uuids. All of it can be checked before the call. */
  predicate Allowed(w: World, a: Action) {
    match a
    case Elapse(_) => true
    case Project(_, _, _, effect) => !IsProductKey(effect.key)
    case Mutate(_, _, _, key) => !IsProductKey(key)
    case ClaimDelivery(consumer, key, token) => OnlyConsumer(w.disk.inbox, consumer, key) && token !in w.tokens
    case ClaimForProduct(_, taskId, key, token) => OwnKey(w.disk.inbox, taskId, key) && token !in w.tokens
    case Release(_, _, key, _, _) => IsProductKey(key)
    case _ => true
  }

  predicate WritesTask(a: Action) {
    a.Project? || a.Mutate?
  }

  predicate Claims(a: Action) {
    a.ClaimDelivery? || a.ClaimForProduct?
  }

  ghost function TaskOutcome(w: World, a: Action): StoreOutcome
    requires WritesTask(a)
  {
    if a.Project? then CompareAndSwap(w.disk, w.cap, a.taskId, a.expected, a.task, a.effect, w.now)
    else MutateTask(w.disk, w.cap, a.taskId, a.expected, a.mutation, a.key, w.now)
  }

  function ClaimOutcome(w: World, a: Action): StoreOutcome
    requires Claims(a)
  {
    if a.ClaimDelivery? then ClaimOutbox(w.disk, w.cap, a.consumer, a.key, a.token, w.now, w.leaseMs)
    else ClaimProduct(w.disk, w.cap, a.consumer, a.taskId, a.key, a.token, w.now, w.leaseMs)
  }

  function LeaseOutcome(w: World, a: Action): StoreOutcome
    requires !WritesTask(a) && !Claims(a) && !a.Elapse?
  {
    if a.Renew? then RenewEffect(w.disk, w.cap, a.consumer, a.taskId, a.key, a.token, a.fence, w.now, w.leaseMs)
    else if a.Complete? then
      FinishEffect(w.disk, w.cap, a.consumer, a.taskId, a.key, a.token, a.fence, Some(a.result), w.now)
    else if a.Release? then
      FinishEffect(w.disk, w.cap, a.consumer, a.taskId, a.key, a.token, a.fence, None, w.now)
    else CompleteOutbox(w.disk, w.cap, a.consumer, a.key, a.token, w.now)
  }

  ghost function Outcome(w: World, a: Action): StoreOutcome {
    if a.Elapse? then Answer(w.disk, Undefined)
    else if WritesTask(a) then TaskOutcome(w, a)
    else if Claims(a) then ClaimOutcome(w, a)
    else LeaseOutcome(w, a)
  }

  /** A step; an action that is not allowed, or finds a counter exhausted, is not a step. */
  ghost function Step(w: World, a: Action): World {
    if !Allowed(w, a) || !Room(w.disk) then w
    else
      World(Outcome(w, a).disk,
            if a.Elapse? then w.now + a.ms else w.now,
            if a.ClaimDelivery? || a.ClaimForProduct? then w.tokens + {a.token} else w.tokens,
            w.cap, w.leaseMs)
  }

  ghost function Run(w: World, actions: seq<Action>): World
    decreases |actions|
  {
    if actions == [] then w else Run(Step(w, actions[0]), actions[1..])
  }

  function Init(now: int, cap: Capacity, leaseMs: int): World {
    World(EMPTY_DISK, now, {}, cap, leaseMs)
  }

  // ---- Where the deliveries of a written image come from ---------------------------------------------------

  lemma {:induction false} OutboxCompactionAddsNothing(x: Disk, cap: Capacity)
    ensures forall t :: t in CompactOutbox(x, cap).tasks ==> t in x.tasks
    ensures forall i :: i in CompactOutbox(x, cap).inbox ==> i in x.inbox
    decreases |x.outbox|
  {
    var e := OutboxCandidate(x.outbox, x.inbox);
    if |x.outbox| > cap.maxEffects && e.Some? {
      OutboxCompactionAddsNothing(DropEffect(x, e.value), cap);
    }
  }

  lemma {:induction false} InboxCompactionAddsNothing(x: Disk, cap: Capacity)
    ensures forall t :: t in CompactInbox(x, cap).tasks ==> t in x.tasks
    ensures forall i :: i in CompactInbox(x, cap).inbox ==> i in x.inbox
    decreases |x.inbox|
  {
    var i := InboxCandidate(x);
    if |x.inbox| > cap.maxEffects && i.Some? {
      InboxCompactionAddsNothing(DropItem(x, i.value), cap);
    }
  }

  lemma {:induction false} TaskCompactionAddsNothing(x: Disk, doomed: seq<StoredTask>, cap: Capacity)
    ensures forall t :: t in CompactTasks(x, doomed, cap).tasks ==> t in x.tasks
    ensures forall i :: i in CompactTasks(x, doomed, cap).inbox ==> i in x.inbox
    decreases |doomed|
  {
    if doomed != [] && |x.tasks| > cap.maxTasks {
      TaskCompactionAddsNothing(
        if AwaitsDelivery(x.inbox, doomed[0].taskId) then x else DropTask(x, doomed[0].taskId), doomed[1..], cap);
    }
  }

  /** What is saved was there before or was just put there. */
  lemma SaveAddsNothing(d: Disk, m: Disk, cap: Capacity, reply: StoreReply)
    ensures forall t :: t in Save(d, m, cap, reply).disk.tasks ==> t in m.tasks || t in d.tasks
    ensures forall i :: i in Save(d, m, cap, reply).disk.inbox ==> i in m.inbox || i in d.inbox
  {
    var a := CompactTasks(m, OldestDeleted(m.tasks), cap);
    var b := CompactOutbox(a, cap);
    TaskCompactionAddsNothing(m, OldestDeleted(m.tasks), cap);
    OutboxCompactionAddsNothing(a, cap);
    InboxCompactionAddsNothing(b, cap);
    OutboxCompactionAddsNothing(CompactInbox(b, cap), cap);
  }

  predicate Renewed(w: World, a: Action, j: Item) {
    && a.Renew? && j.delivery == Leased(a.token, w.now + w.leaseMs)
    && exists i :: i in w.disk.inbox && SlotOf(i) == SlotOf(j)
                   && i.delivery.Leased? && i.delivery.token == a.token && i.delivery.expiresAt > w.now
  }

  predicate JustClaimed(w: World, a: Action, j: Item) {
    && (a.ClaimDelivery? || a.ClaimForProduct?)
    && j.delivery == Leased(a.token, w.now + w.leaseMs)
    && a.token !in w.tokens
  }

  /** Tasks are not touched, and any new or changed delivery is `delivery` in `slot`. */
  ghost predicate OnlyDelivers(d: Disk, w: Disk, slot: Slot, delivery: Delivery) {
    && (forall t :: t in w.tasks ==> t in d.tasks)
    && (forall j :: j in w.inbox ==> j in d.inbox || (SlotOf(j) == slot && j.delivery == delivery))
  }

  lemma DeliverAdds(d: Disk, cap: Capacity, item: Item, next: Delivery, reply: StoreReply)
    ensures OnlyDelivers(d, Deliver(d, cap, item, next, reply).disk, SlotOf(item), next)
  {
    SaveAddsNothing(d, Disk(d.revision, d.tasks, d.outbox, Put(d.inbox, SlotOf, item.(delivery := next))), cap, reply);
  }

  lemma ClaimAdds(d: Disk, cap: Capacity, outbox: seq<Effect>, claimed: Item, known: bool)
    requires claimed.delivery.Leased?
    ensures OnlyDelivers(d, SaveClaim(d, cap, outbox, claimed, known).disk, SlotOf(claimed), claimed.delivery)
  {
    SaveAddsNothing(d, Disk(d.revision, d.tasks, outbox, PutItem(d.inbox, claimed, known)), cap,
                    LeaseGranted(claimed.delivery.token, claimed.delivery.expiresAt, claimed.fence));
  }

  lemma ClaimOutboxAdds(
    d: Disk, cap: Capacity, consumer: Id, key: EffectKey, token: Id, now: int, leaseMs: int, o: StoreOutcome)
    requires o == ClaimOutbox(d, cap, consumer, key, token, now, leaseMs)
    ensures OnlyDelivers(d, o.disk, Slot(consumer, key), Leased(token, now + leaseMs))
  {
    var effect, item := FindEffect(d.outbox, key), FindItem(d.inbox, Slot(consumer, key));
    if DeliveryClaimAnswer(effect, item, now).None? {
      ClaimAdds(d, cap, d.outbox, NewClaim(consumer, effect.value.taskId, key, item, token, now + leaseMs), item.Some?);
    }
  }

  lemma ClaimProductAdds(
    d: Disk, cap: Capacity, consumer: Id, taskId: Id, key: EffectKey, token: Id, now: int, leaseMs: int, o: StoreOutcome)
    requires o == ClaimProduct(d, cap, consumer, taskId, key, token, now, leaseMs)
    ensures OnlyDelivers(d, o.disk, Slot(consumer, key), Leased(token, now + leaseMs))
  {
    var task, effect, item := FindTask(d.tasks, taskId), FindEffect(d.outbox, key), FindItem(d.inbox, Slot(consumer, key));
    if ProductClaimAnswer(task, effect, item, taskId, now).None? {
      ClaimAdds(d, cap, WithProductEffect(d.outbox, key, taskId, task.value.version, now),
                NewClaim(consumer, taskId, key, item, token, now + leaseMs), item.Some?);
    }
  }

  lemma SaveTaskAdds(d: Disk, cap: Capacity, task: StoredTask, e: Effect)
    ensures forall j :: j in SaveTask(d, cap, task, e).disk.inbox ==> j in d.inbox
    ensures forall u :: u in SaveTask(d, cap, task, e).disk.tasks ==> u in d.tasks || u == task
  {
    SaveAddsNothing(d, PutTask(d, task, e), cap, Stored(task));
  }

  lemma RenewAdds(
    d: Disk, cap: Capacity, consumer: Id, taskId: Id, key: EffectKey, token: Id, fence: int, now: int, leaseMs: int)
    ensures
      var w := RenewEffect(d, cap, consumer, taskId, key, token, fence, now, leaseMs).disk;
      && OnlyDelivers(d, w, Slot(consumer, key), Leased(token, now + leaseMs))
      && (w == d || Presents(FindItem(d.inbox, Slot(consumer, key)), taskId, token, fence, now))
  {
    var item := FindItem(d.inbox, Slot(consumer, key));
    if Presents(item, taskId, token, fence, now) {
      DeliverAdds(d, cap, item.value, Leased(token, now + leaseMs), LeaseRenewed(now + leaseMs));
    }
  }

  lemma FinishAdds(
    d: Disk, cap: Capacity, consumer: Id, taskId: Id, key: EffectKey, token: Id, fence: int, end: Option<EffectResult>, now: int)
    ensures
      OnlyDelivers(d, FinishEffect(d, cap, consumer, taskId, key, token, fence, end, now).disk, Slot(consumer, key),
                   if end.Some? then Completed(now, end) else Released(now))
  {
    var item := FindItem(d.inbox, Slot(consumer, key));
    if Presents(item, taskId, token, fence, now) {
      DeliverAdds(d, cap, item.value, if end.Some? then Completed(now, end) else Released(now), Finished);
    }
  }

  lemma CompleteOutboxAdds(d: Disk, cap: Capacity, consumer: Id, key: EffectKey, token: Id, now: int)
    ensures OnlyDelivers(d, CompleteOutbox(d, cap, consumer, key, token, now).disk, Slot(consumer, key), Completed(now, None))
  {
    var item := FindItem(d.inbox, Slot(consumer, key));
    if item.Some? {
      DeliverAdds(d, cap, item.value, Completed(now, None), Finished);
    }
  }

  lemma OutboxClaimOnlyDelivers(w: World, a: Action)
    requires a.ClaimDelivery?
    ensures OnlyDelivers(w.disk, ClaimOutcome(w, a).disk, Slot(a.consumer, a.key), Leased(a.token, w.now + w.leaseMs))
  {
    ClaimOutboxAdds(w.disk, w.cap, a.consumer, a.key, a.token, w.now, w.leaseMs, ClaimOutcome(w, a));
  }

  lemma ProductClaimOnlyDelivers(w: World, a: Action)
    requires a.ClaimForProduct?
    ensures OnlyDelivers(w.disk, ClaimOutcome(w, a).disk, Slot(a.consumer, a.key), Leased(a.token, w.now + w.leaseMs))
  {
    hide SaveClaim;
    ClaimProductAdds(w.disk, w.cap, a.consumer, a.taskId, a.key, a.token, w.now, w.leaseMs, ClaimOutcome(w, a));
  }

  lemma ClaimsOnlyDeliver(w: World, a: Action)
    requires Claims(a)
    ensures OnlyDelivers(w.disk, ClaimOutcome(w, a).disk, Slot(a.consumer, a.key), Leased(a.token, w.now + w.leaseMs))
  {
    if a.ClaimDelivery? { OutboxClaimOnlyDelivers(w, a); } else { ProductClaimOnlyDelivers(w, a); }
  }

  /** The delivery an action on a lease may write. */
  function DeliveryOf(w: World, a: Action): Delivery
    requires !WritesTask(a) && !Claims(a) && !a.Elapse?
  {
    if a.Renew? then Leased(a.token, w.now + w.leaseMs)
    else if a.Complete? then Completed(w.now, Some(a.result))
    else if a.Release? then Released(w.now)
    else Completed(w.now, None)
  }

  lemma FinishOnlyDelivers(w: World, a: Action)
    requires a.Complete? || a.Release?
    ensures OnlyDelivers(w.disk, LeaseOutcome(w, a).disk, Slot(a.consumer, a.key), DeliveryOf(w, a))
  {
    var end := if a.Complete? then Some(a.result) else None;
    FinishAdds(w.disk, w.cap, a.consumer, a.taskId, a.key, a.token, a.fence, end, w.now);
  }

  lemma LeasesOnlyDeliver(w: World, a: Action)
    requires !WritesTask(a) && !Claims(a) && !a.Elapse?
    ensures OnlyDelivers(w.disk, LeaseOutcome(w, a).disk, Slot(a.consumer, a.key), DeliveryOf(w, a))
  {
    hide OnlyDelivers;
    if a.Renew? {
      RenewAdds(w.disk, w.cap, a.consumer, a.taskId, a.key, a.token, a.fence, w.now, w.leaseMs);
    } else if a.Complete? || a.Release? {
      FinishOnlyDelivers(w, a);
    } else {
      CompleteOutboxAdds(w.disk, w.cap, a.consumer, a.key, a.token, w.now);
    }
  }

  /** The task an action may write. */
  function TaskOf(w: World, a: Action): Option<StoredTask>
    requires WritesTask(a)
  {
    var current := FindTask(w.disk.tasks, a.taskId);
    if a.Project? then Some(SwappedTask(current, a.taskId, a.task))
    else if current.Some? && Mutated(current.value, a.mutation).Ok? then Some(Mutated(current.value, a.mutation).value)
    else None
  }

  lemma ProjectionOnly(w: World, a: Action)
    requires a.Project?
    ensures forall j :: j in TaskOutcome(w, a).disk.inbox ==> j in w.disk.inbox
    ensures forall u :: u in TaskOutcome(w, a).disk.tasks ==> u in w.disk.tasks || Some(u) == TaskOf(w, a)
  {
    var task := TaskOf(w, a);
    if task.Some? {
      SaveTaskAdds(w.disk, w.cap, task.value, ProjectedEffect(a.effect, task.value.version, w.now));
    }
  }

  lemma MutationOnly(w: World, a: Action)
    requires WritesTask(a) && !a.Project?
    ensures forall j :: j in TaskOutcome(w, a).disk.inbox ==> j in w.disk.inbox
    ensures forall u :: u in TaskOutcome(w, a).disk.tasks ==> u in w.disk.tasks || Some(u) == TaskOf(w, a)
  {
    hide SaveTask, Mutated, FindTask;
    var task := TaskOf(w, a);
    if task.Some? {
      SaveTaskAdds(w.disk, w.cap, task.value, Effect(a.key, TaskMutated, a.taskId, None, task.value.version, w.now));
    }
  }

  lemma TasksOnly(w: World, a: Action)
    requires WritesTask(a)
    ensures forall j :: j in TaskOutcome(w, a).disk.inbox ==> j in w.disk.inbox
    ensures forall u :: u in TaskOutcome(w, a).disk.tasks ==> u in w.disk.tasks || Some(u) == TaskOf(w, a)
  {
    if a.Project? { ProjectionOnly(w, a); } else { MutationOnly(w, a); }
  }

  /** Every lease found after a step was there before, was just claimed, or is the renewal of a
      lease that had not expired. */
  lemma LeasesAfter(w: World, a: Action, j: Item)
    requires Allowed(w, a) && j in Outcome(w, a).disk.inbox && j.delivery.Leased?
    ensures j in w.disk.inbox || JustClaimed(w, a, j) || Renewed(w, a, j)
  {
    if WritesTask(a) {
      TasksOnly(w, a);
    } else if Claims(a) {
      ClaimsOnlyDeliver(w, a);
    } else if !a.Elapse? {
      LeasesOnlyDeliver(w, a);
      if a.Renew? {
        RenewAdds(w.disk, w.cap, a.consumer, a.taskId, a.key, a.token, a.fence, w.now, w.leaseMs);
      }
    }
  }

  lemma TasksAfter(w: World, a: Action, u: StoredTask)
    requires u in Outcome(w, a).disk.tasks
    ensures u in w.disk.tasks || (WritesTask(a) && TaskOf(w, a) == Some(u) && TaskOutcome(w, a).disk != w.disk)
  {
    if WritesTask(a) {
      TasksOnly(w, a);
    } else if Claims(a) {
      ClaimsOnlyDeliver(w, a);
    } else if !a.Elapse? {
      LeasesOnlyDeliver(w, a);
    }
  }

  // ---- The invariant ------------------------------------------------------------------------------------------

  /** With one lease length and a clock that does not go back no lease reaches beyond a fresh one. */
  ghost predicate LeasesBounded(inbox: seq<Item>, horizon: int) {
    forall i :: i in inbox && i.delivery.Leased? ==> i.delivery.expiresAt <= horizon
  }

  ghost predicate TokensDrawn(inbox: seq<Item>, tokens: set<Id>) {
    forall i :: i in inbox && i.delivery.Leased? ==> i.delivery.token in tokens
  }

  ghost predicate Inv(w: World) {
    && ValidLease(w.leaseMs)
    && Good(w.disk, w.cap)
    && LeasesBounded(w.disk.inbox, w.now + w.leaseMs)
    && TokensDrawn(w.disk.inbox, w.tokens)
  }

  lemma TaskOutcomeIsExplained(w: World, a: Action)
    requires Inv(w) && Allowed(w, a) && Room(w.disk) && WritesTask(a)
    ensures Explained(w.disk, TaskOutcome(w, a).disk, w.cap)
  {
    if a.Project? {
      CompareAndSwapIsExplained(w.disk, w.cap, a.taskId, a.expected, a.task, a.effect, w.now);
    } else {
      MutateTaskIsExplained(w.disk, w.cap, a.taskId, a.expected, a.mutation, a.key, w.now);
    }
  }

  lemma ClaimOutcomeIsExplained(w: World, a: Action)
    requires Inv(w) && Allowed(w, a) && Room(w.disk) && Claims(a)
    ensures Explained(w.disk, ClaimOutcome(w, a).disk, w.cap)
  {
    if a.ClaimDelivery? {
      ClaimOutboxIsExplained(w.disk, w.cap, a.consumer, a.key, a.token, w.now, w.leaseMs);
    } else {
      ClaimProductIsExplained(w.disk, w.cap, a.consumer, a.taskId, a.key, a.token, w.now, w.leaseMs);
    }
  }

  lemma RenewalIsExplained(w: World, a: Action)
    requires Inv(w) && Room(w.disk) && a.Renew?
    ensures Explained(w.disk, LeaseOutcome(w, a).disk, w.cap)
  {
    var item := FindItem(w.disk.inbox, Slot(a.consumer, a.key));
    NothingIsExplained(w.disk, w.cap);
    if 1 <= a.fence <= MAX_SAFE_INTEGER && Presents(item, a.taskId, a.token, a.fence, w.now) {
      RenewExactly(w.disk, w.cap, a.consumer, a.taskId, a.key, a.token, a.fence, w.now, w.leaseMs);
    }
  }

  lemma LeaseOutcomeIsExplained(w: World, a: Action)
    requires Inv(w) && Allowed(w, a) && Room(w.disk) && !WritesTask(a) && !Claims(a) && !a.Elapse?
    ensures Explained(w.disk, LeaseOutcome(w, a).disk, w.cap)
  {
    if a.Renew? {
      RenewalIsExplained(w, a);
    } else if a.Complete? {
      FinishIsExplained(w.disk, w.cap, a.consumer, a.taskId, a.key, a.token, a.fence, Some(a.result), w.now);
    } else if a.Release? {
      FinishIsExplained(w.disk, w.cap, a.consumer, a.taskId, a.key, a.token, a.fence, None, w.now);
    } else {
      CompleteOutboxIsExplained(w.disk, w.cap, a.consumer, a.key, a.token, w.now);
    }
  }

  lemma OutcomeIsExplained(w: World, a: Action)
    requires Inv(w) && Allowed(w, a) && Room(w.disk)
    ensures Explained(w.disk, Outcome(w, a).disk, w.cap)
  {
    if a.Elapse? { NothingIsExplained(w.disk, w.cap); }
    else if WritesTask(a) { TaskOutcomeIsExplained(w, a); }
    else if Claims(a) { ClaimOutcomeIsExplained(w, a); }
    else { LeaseOutcomeIsExplained(w, a); }
  }

  lemma StepKeepsInv(w: World, a: Action)
    requires Inv(w)
    ensures Inv(Step(w, a))
  {
    if Allowed(w, a) && Room(w.disk) {
      OutcomeIsExplained(w, a);
      forall j | j in Outcome(w, a).disk.inbox && j.delivery.Leased?
        ensures j.delivery.expiresAt <= w.now + w.leaseMs && j.delivery.token in Step(w, a).tokens
      {
        LeasesAfter(w, a, j);
      }
    }
  }

  lemma {:induction false} RunKeepsInv(w: World, actions: seq<Action>)
    requires Inv(w)
    ensures Inv(Run(w, actions))
    decreases |actions|
  {
    if actions != [] {
      StepKeepsInv(w, actions[0]);
      RunKeepsInv(Step(w, actions[0]), actions[1..]);
    }
  }

  // ---- Theorems ---------------------------------------------------------------------------------------------------

  /** In every reachable state, whatever the next operation and however much compaction it
      causes, what it writes is readable and recovery accepts it over the image it replaces. */
  lemma {:induction false} EveryWriteIsExplained(now: int, cap: Capacity, leaseMs: int, actions: seq<Action>, a: Action)
    requires ValidLease(leaseMs)
    ensures
      var w := Run(Init(now, cap, leaseMs), actions);
      Explained(w.disk, Step(w, a).disk, w.cap)
  {
    hide Outcome, Gate, Remembers;
    RunKeepsInv(Init(now, cap, leaseMs), actions);
    var w := Run(Init(now, cap, leaseMs), actions);
    NothingIsExplained(w.disk, w.cap);
    if Allowed(w, a) && Room(w.disk) {
      OutcomeIsExplained(w, a);
    }
  }

  function ResultOf(i: Item): EffectResult
    requires i.delivery.Completed?
  {
    if i.delivery.result.Some? then i.delivery.result.value else EffectResult(None)
  }

  /** Nobody gets to do the completed effect `i` again: claims are answered with its result, and
      nothing can be renewed, completed or released. */
  ghost predicate AnsweredAsDone(w: World, a: Action, i: Item)
    requires i.delivery.Completed?
  {
    match a
    case ClaimForProduct(consumer, taskId, key, _) =>
      Slot(consumer, key) == SlotOf(i) && taskId == i.taskId ==> Outcome(w, a).reply == Ok(AlreadyCompleted(ResultOf(i)))
    case ClaimDelivery(consumer, key, _) =>
      Slot(consumer, key) == SlotOf(i) ==> Outcome(w, a).reply == Ok(Undefined)
    case Renew(consumer, _, key, _, fence) =>
      Slot(consumer, key) == SlotOf(i) && 1 <= fence <= MAX_SAFE_INTEGER ==> Outcome(w, a).reply == Ok(Undefined)
    case Complete(consumer, _, key, _, fence, _) =>
      Slot(consumer, key) == SlotOf(i) && 1 <= fence <= MAX_SAFE_INTEGER ==> Outcome(w, a).reply == Ok(Undefined)
    case Release(consumer, _, key, _, fence) =>
      Slot(consumer, key) == SlotOf(i) && 1 <= fence <= MAX_SAFE_INTEGER ==> Outcome(w, a).reply == Ok(Undefined)
    case CompleteDelivery(consumer, key, _) =>
      Slot(consumer, key) == SlotOf(i) ==> Outcome(w, a).reply == Ok(Undefined)
    case _ => true
  }

  /** The task stays, undeleted, in every state of the run. */
  ghost predicate LiveThroughout(w: World, actions: seq<Action>, taskId: Id)
    decreases |actions|
  {
    !IsDeleted(w.disk.tasks, taskId) && (actions == [] || LiveThroughout(Step(w, actions[0]), actions[1..], taskId))
  }

  /** In every state of the run the effect is recorded as done, exactly as it was completed. */
  ghost predicate DoneThroughout(w: World, actions: seq<Action>, i: Item)
    requires i.delivery.Completed?
    decreases |actions|
  {
    && i in w.disk.inbox
    && (actions == [] || (AnsweredAsDone(w, actions[0], i) && DoneThroughout(Step(w, actions[0]), actions[1..], i)))
  }

  lemma DoneIsAnswered(w: World, a: Action, i: Item)
    requires Inv(w) && i in w.disk.inbox && i.delivery.Completed? && !IsDeleted(w.disk.tasks, i.taskId)
    ensures AnsweredAsDone(w, a, i)
  {
    hide First;
    FindsItem(w.disk.inbox, i);
  }

  /** Exactly once: while its task is not deleted, a completed product effect stays completed with
      the same result, through every compaction, and every later attempt is told so. */
  lemma {:induction false} ProductEffectsHappenOnce(w: World, actions: seq<Action>, i: Item)
    requires Inv(w) && i in w.disk.inbox && i.delivery.Completed? && IsProductKey(i.key)
    requires LiveThroughout(w, actions, i.taskId)
    ensures DoneThroughout(w, actions, i)
    decreases |actions|
  {
    if actions != [] {
      DoneIsAnswered(w, actions[0], i);
      StepKeepsInv(w, actions[0]);
      if Allowed(w, actions[0]) && Room(w.disk) {
        OutcomeIsExplained(w, actions[0]);
      }
      ProductEffectsHappenOnce(Step(w, actions[0]), actions[1..], i);
    }
  }

  /** The lease of this token has expired, was taken over, or has been used up. */
  ghost predicate Dead(w: World, slot: Slot, token: Id) {
    && token in w.tokens
    && forall i :: i in w.disk.inbox && SlotOf(i) == slot && i.delivery.Leased? && i.delivery.token == token ==>
         i.delivery.expiresAt <= w.now
  }

  predicate Uses(a: Action, slot: Slot, token: Id) {
    (a.Renew? || a.Complete? || a.Release? || a.CompleteDelivery?) && Slot(a.consumer, a.key) == slot && a.token == token
  }

  ghost predicate RefusedThroughout(w: World, actions: seq<Action>, slot: Slot, token: Id)
    decreases |actions|
  {
    actions == [] ||
    (&& (Uses(actions[0], slot, token) ==>
           Outcome(w, actions[0]).reply == Ok(Undefined) || Outcome(w, actions[0]).reply == Err(StoreInvalid))
     && RefusedThroughout(Step(w, actions[0]), actions[1..], slot, token))
  }

  lemma DeadIsRefused(w: World, a: Action, slot: Slot, token: Id)
    requires Dead(w, slot, token) && Uses(a, slot, token)
    ensures Outcome(w, a).reply == Ok(Undefined) || Outcome(w, a).reply == Err(StoreInvalid)
  {
  }

  lemma DeadStaysDead(w: World, a: Action, slot: Slot, token: Id)
    requires Inv(w) && Dead(w, slot, token)
    ensures Dead(Step(w, a), slot, token)
  {
    if Allowed(w, a) && Room(w.disk) {
      forall j | j in Outcome(w, a).disk.inbox && SlotOf(j) == slot && j.delivery.Leased? && j.delivery.token == token
        ensures j.delivery.expiresAt <= w.now
      {
        LeasesAfter(w, a, j);
      }
    }
  }

  lemma {:induction false} DeadLeasesAreRefused(w: World, actions: seq<Action>, slot: Slot, token: Id)
    requires Inv(w) && Dead(w, slot, token)
    ensures RefusedThroughout(w, actions, slot, token)
    decreases |actions|
  {
    if actions != [] {
      if Uses(actions[0], slot, token) { DeadIsRefused(w, actions[0], slot, token); }
      StepKeepsInv(w, actions[0]);
      DeadStaysDead(w, actions[0], slot, token);
      DeadLeasesAreRefused(Step(w, actions[0]), actions[1..], slot, token);
    }
  }

  /** A live lease answers every claim on its delivery. */
  lemma LiveLeaseAnswers(effect: Option<Effect>, task: Option<StoredTask>, i: Item, taskId: Id, now: int)
    requires i.delivery.Leased? && i.delivery.expiresAt > now
    ensures
      var d, p := DeliveryClaimAnswer(effect, Some(i), now), ProductClaimAnswer(task, effect, Some(i), taskId, now);
      && d.Some? && (d.value.Ok? ==> !d.value.value.LeaseGranted?)
      && p.Some? && (p.value.Ok? ==> !p.value.value.LeaseGranted?)
  {
  }

  /** A claim is granted only over an expired lease. */
  lemma GrantedOverExpired(w: World, i: Item, a: Action)
    requires Inv(w) && i in w.disk.inbox && i.delivery.Leased?
    requires Claims(a) && Slot(a.consumer, a.key) == SlotOf(i)
    requires ClaimOutcome(w, a).reply.Ok? && ClaimOutcome(w, a).reply.value.LeaseGranted?
    ensures i.delivery.expiresAt <= w.now
  {
    FindsItem(w.disk.inbox, i);
    if i.delivery.expiresAt > w.now {
      var effect := FindEffect(w.disk.outbox, a.key);
      if a.ClaimDelivery? {
        LiveLeaseAnswers(effect, None, i, i.taskId, w.now);
      } else {
        LiveLeaseAnswers(effect, FindTask(w.disk.tasks, a.taskId), i, a.taskId, w.now);
      }
    }
  }

  /** Fencing of deliveries: once a lease has expired, and so too once somebody else was granted
      its delivery, its holder can never again renew, complete or release it, in any
      continuation of the run. */
  lemma {:induction false} FormerHoldersAreRefused(w: World, i: Item, a: Action, actions: seq<Action>)
    requires Inv(w) && i in w.disk.inbox && i.delivery.Leased?
    requires
      || i.delivery.expiresAt <= w.now
      || (&& Claims(a) && Slot(a.consumer, a.key) == SlotOf(i)
          && ClaimOutcome(w, a).reply.Ok? && ClaimOutcome(w, a).reply.value.LeaseGranted?)
    ensures RefusedThroughout(Step(w, a), actions, SlotOf(i), i.delivery.token)
  {
    if i.delivery.expiresAt > w.now { GrantedOverExpired(w, i, a); }
    forall j | j in w.disk.inbox && SlotOf(j) == SlotOf(i) ensures j == i {
      UniqueMember(w.disk.inbox, SlotOf, i, j);
    }
    StepKeepsInv(w, a);
    DeadStaysDead(w, a, SlotOf(i), i.delivery.token);
    DeadLeasesAreRefused(Step(w, a), actions, SlotOf(i), i.delivery.token);
  }

  // ---- Results ------------------------------------------------------------------------------------------------

  predicate FinalResult(t: StoredTask) {
    t.result == Ready || t.result == FailedPermanent
  }

  function ResultRank(r: ResultState): nat {
    match r
    case NotAvailable => 0
    case PendingMaterialization => 1
    case Materializing => 2
    case FailedRetryable => 2
    case Ready => 3
    case FailedPermanent => 3
  }

  /** A result only moves on, and a final one stays with its outputs. */
  predicate ResultAdvances(t: StoredTask, u: StoredTask) {
    && ResultRank(t.result) <= ResultRank(u.result)
    && (FinalResult(t) ==> u.result == t.result && u.outputs == t.outputs)
  }

  ghost predicate PresentThroughout(w: World, actions: seq<Action>, taskId: Id)
    decreases |actions|
  {
    HasTask(w.disk.tasks, taskId) && (actions == [] || PresentThroughout(Step(w, actions[0]), actions[1..], taskId))
  }

  lemma MutationAdvancesResult(t: StoredTask, m: ProductMutation)
    requires ParsableMutation(m) && Mutated(t, m).Ok?
    ensures ResultAdvances(t, Mutated(t, m).value)
  {
  }

  lemma ProjectionAdvancesResult(t: StoredTask, taskId: Id, input: StoredTask, e: Effect)
    requires MayProject(Some(t), SwappedTask(Some(t), taskId, input), e)
    ensures ResultAdvances(t, SwappedTask(Some(t), taskId, input))
  {
  }

  /** The task as written, when the write went through. */
  lemma TaskWrites(w: World, a: Action)
    requires WritesTask(a) && TaskOutcome(w, a).disk != w.disk
    ensures
      var current := FindTask(w.disk.tasks, a.taskId);
      if a.Project? then
        MayProject(current, SwappedTask(current, a.taskId, a.task),
                   ProjectedEffect(a.effect, SwappedTask(current, a.taskId, a.task).version, w.now))
      else
        current.Some? && ParsableMutation(a.mutation) && Mutated(current.value, a.mutation).Ok?
  {
  }

  lemma StepAdvancesResult(w: World, a: Action, t: StoredTask, u: StoredTask)
    requires Inv(w) && Allowed(w, a) && t in w.disk.tasks
    requires u in Outcome(w, a).disk.tasks && u.taskId == t.taskId
    ensures ResultAdvances(t, u)
  {
    FindsTask(w.disk.tasks, t);
    TasksAfter(w, a, u);
    if u in w.disk.tasks {
      UniqueMember(w.disk.tasks, TaskKey, t, u);
    } else {
      TaskWrites(w, a);
      if a.Project? {
        ProjectionAdvancesResult(t, a.taskId, a.task, ProjectedEffect(a.effect, u.version, w.now));
      } else {
        MutationKeeps(FindTask(w.disk.tasks, a.taskId).value, a.mutation);
        MutationAdvancesResult(t, a.mutation);
      }
    }
  }

  /** Results only move on, and ready and permanently failed ones are final: as long as the task
      stays in the store, no mix of projections, events and materializations takes a result back,
      or changes a final one or its outputs. */
  lemma {:induction false} ResultsOnlyAdvance(w: World, actions: seq<Action>, t: StoredTask, u: StoredTask)
    requires Inv(w) && t in w.disk.tasks && PresentThroughout(w, actions, t.taskId)
    requires u in Run(w, actions).disk.tasks && u.taskId == t.taskId
    ensures ResultAdvances(t, u)
    decreases |actions|
  {
    if actions == [] {
      UniqueMember(w.disk.tasks, TaskKey, t, u);
    } else {
      var v := Step(w, actions[0]);
      StepKeepsInv(w, actions[0]);
      var s :| s in v.disk.tasks && s.taskId == t.taskId;
      if Allowed(w, actions[0]) && Room(w.disk) {
        StepAdvancesResult(w, actions[0], t, s);
      } else {
        UniqueMember(w.disk.tasks, TaskKey, t, s);
      }
      ResultsOnlyAdvance(v, actions[1..], s, u);
    }
  }
}
