/** What the answers of the product store mean for the rest of a run: a completion that was answered
    stays recorded, a release frees the delivery for the next holder. */
module StoreHistory {
  import opened Prelude
  import opened Lists
  import opened TaskContract
  import opened TaskStore
  import opened StoreGate
  import opened StoreSteps
  import opened StoreEffects
  import opened StoreRuns

  lemma {:induction false} ReachableInv(now: int, cap: Capacity, leaseMs: int, actions: seq<Action>)
    requires ValidLease(leaseMs)
    ensures Inv(Run(Init(now, cap, leaseMs), actions))
  {
    hide Run;
    RunKeepsInv(Init(now, cap, leaseMs), actions);
  }

  /** The action is one the store takes, and was answered as done. */
  ghost predicate Answered(w: World, a: Action) {
    Allowed(w, a) && Room(w.disk) && StoreRuns.Outcome(w, a).reply == Ok(Finished)
  }

  /** The item a completion or a release leaves in its slot. */
  function Ended(w: World, a: Action): Item
    requires a.Complete? || a.Release?
  {
    Item(a.consumer, a.taskId, a.key, a.fence, if a.Complete? then Completed(w.now, Some(a.result)) else Released(w.now))
  }

  lemma EndOutcome(w: World, a: Action)
    requires a.Complete? || a.Release?
    ensures
      StoreRuns.Outcome(w, a) == FinishEffect(w.disk, w.cap, a.consumer, a.taskId, a.key, a.token, a.fence,
                                    if a.Complete? then Some(a.result) else None, w.now)
  {
  }

  lemma RefusedFence(d: Disk, cap: Capacity, consumer: Id, taskId: Id, key: EffectKey, token: Id, fence: int,
                     end: Option<EffectResult>, now: int)
    requires !(1 <= fence <= MAX_SAFE_INTEGER)
    ensures FinishEffect(d, cap, consumer, taskId, key, token, fence, end, now) == StoreOutcome(d, Err(StoreInvalid))
  {
  }

  lemma EndStep(w: World, a: Action)
    requires Inv(w) && (a.Complete? || a.Release?) && Answered(w, a)
    ensures OnlyChanged(w.disk, Step(w, a).disk, Ended(w, a))
    ensures HeldLease(w.disk, a.consumer, a.taskId, a.key, a.fence, a.token, w.now)
  {
    hide FinishEffect, OnlyChanged, HeldLease;
    var end := if a.Complete? then Some(a.result) else None;
    EndOutcome(w, a);
    if 1 <= a.fence <= MAX_SAFE_INTEGER {
      FinishIsStored(w.disk, w.cap, a.consumer, a.taskId, a.key, a.token, a.fence, end, w.now);
    } else {
      RefusedFence(w.disk, w.cap, a.consumer, a.taskId, a.key, a.token, a.fence, end, w.now);
    }
  }

  /** In every reachable store an answered completion or release leaves its slot exactly as it says,
      and every other delivery, every task and every effect as it was. */
  lemma {:induction false} AnsweredEndIsOnDisk(now: int, cap: Capacity, leaseMs: int, before: seq<Action>, a: Action)
    requires ValidLease(leaseMs) && (a.Complete? || a.Release?) && Answered(Run(Init(now, cap, leaseMs), before), a)
    ensures
      var w := Run(Init(now, cap, leaseMs), before);
      OnlyChanged(w.disk, Step(w, a).disk, Ended(w, a))
  {
    hide Run, Step, OnlyChanged;
    ReachableInv(now, cap, leaseMs, before);
    EndStep(Run(Init(now, cap, leaseMs), before), a);
  }

  lemma {:induction false} DoneAtEnd(w: World, actions: seq<Action>, i: Item)
    requires i.delivery.Completed? && DoneThroughout(w, actions, i) && LiveThroughout(w, actions, i.taskId)
    ensures i in Run(w, actions).disk.inbox && !IsDeleted(Run(w, actions).disk.tasks, i.taskId)
    decreases |actions|
  {
    hide Step;
    if actions != [] {
      DoneAtEnd(Step(w, actions[0]), actions[1..], i);
    }
  }

  /** Exactly once, from the answer on: after a completion was answered `Finished`, the effect is
      recorded as done in every state of the run while its task is not deleted, and whoever claims it
      then, however much later, is told that it is done and what its result was. */
  lemma {:induction false} AnsweredCompletionHappensOnce(
    now: int, cap: Capacity, leaseMs: int, before: seq<Action>, a: Action, after: seq<Action>, token: Id)
    requires ValidLease(leaseMs) && a.Complete? && Answered(Run(Init(now, cap, leaseMs), before), a) && IsProductKey(a.key)
    requires LiveThroughout(Step(Run(Init(now, cap, leaseMs), before), a), after, a.taskId)
    ensures
      var w := Run(Init(now, cap, leaseMs), before);
      var v := Run(Step(w, a), after);
      && DoneThroughout(Step(w, a), after, Ended(w, a))
      && Ended(w, a) in v.disk.inbox
      && StoreRuns.Outcome(v, ClaimForProduct(a.consumer, a.taskId, a.key, token)).reply == Ok(AlreadyCompleted(a.result))
  {
    hide Run, Step, Inv, OnlyChanged, DoneThroughout, LiveThroughout;
    ReachableInv(now, cap, leaseMs, before);
    var w := Run(Init(now, cap, leaseMs), before);
    EndStep(w, a);
    EndIsThere(w.disk, Step(w, a).disk, Ended(w, a));
    StepKeepsInv(w, a);
    ProductEffectsHappenOnce(Step(w, a), after, Ended(w, a));
    RunKeepsInv(Step(w, a), after);
    DoneAtEnd(Step(w, a), after, Ended(w, a));
    DoneIsAnswered(Run(Step(w, a), after), ClaimForProduct(a.consumer, a.taskId, a.key, token), Ended(w, a));
  }

  lemma EndIsThere(d: Disk, w: Disk, next: Item)
    requires OnlyChanged(d, w, next)
    ensures next in w.inbox
  {
  }

  lemma ClaimedAgain(w: World, i: Item, token: Id)
    requires Inv(w) && i in w.disk.inbox && i.delivery.Released? && IsProductKey(i.key)
    requires HasTask(w.disk.tasks, i.taskId) && !IsDeleted(w.disk.tasks, i.taskId)
    requires OwnKey(w.disk.inbox, i.taskId, i.key)
    ensures
      StoreRuns.Outcome(w, ClaimForProduct(i.consumer, i.taskId, i.key, token)).reply ==
        Ok(LeaseGranted(token, w.now + w.leaseMs, i.fence + 1))
  {
    hide ClaimProduct;
    FindsItem(w.disk.inbox, i);
    EffectsOfKey(w.disk, w.cap, i);
    ProductClaimExactly(w.disk, w.cap, i.consumer, i.taskId, i.key, token, w.now, w.leaseMs);
  }

  lemma EffectsOfKey(d: Disk, cap: Capacity, i: Item)
    requires Good(d, cap) && i in d.inbox
    ensures forall e :: e in d.outbox && e.key == i.key ==> e.taskId == i.taskId
  {
  }

  /** A release frees the delivery: the next claim, at any later time, is granted with the next
      fence and a full term. */
  lemma {:induction false} ReleasedIsGrantedNext(
    now: int, cap: Capacity, leaseMs: int, before: seq<Action>, a: Action, ms: nat, token: Id)
    requires ValidLease(leaseMs) && a.Release? && Answered(Run(Init(now, cap, leaseMs), before), a)
    requires
      var w := Run(Init(now, cap, leaseMs), before);
      OwnKey(w.disk.inbox, a.taskId, a.key) && HasTask(w.disk.tasks, a.taskId) && !IsDeleted(w.disk.tasks, a.taskId)
    ensures
      var v := Step(Step(Run(Init(now, cap, leaseMs), before), a), Elapse(ms));
      StoreRuns.Outcome(v, ClaimForProduct(a.consumer, a.taskId, a.key, token)).reply ==
        Ok(LeaseGranted(token, v.now + leaseMs, a.fence + 1))
  {
    hide Run, Step, Inv, OwnKey, HasTask, IsDeleted, Answered, StoreRuns.Outcome;
    ReachableInv(now, cap, leaseMs, before);
    RunKeepsLease(Init(now, cap, leaseMs), before);
    ReleaseThenClaim(Run(Init(now, cap, leaseMs), before), a, ms, token);
  }

  lemma ReleaseThenClaim(w: World, a: Action, ms: nat, token: Id)
    requires Inv(w) && a.Release? && Answered(w, a)
    requires OwnKey(w.disk.inbox, a.taskId, a.key) && HasTask(w.disk.tasks, a.taskId) && !IsDeleted(w.disk.tasks, a.taskId)
    ensures
      var v := Step(Step(w, a), Elapse(ms));
      StoreRuns.Outcome(v, ClaimForProduct(a.consumer, a.taskId, a.key, token)).reply ==
        Ok(LeaseGranted(token, v.now + w.leaseMs, a.fence + 1))
  {
    hide Step, Inv, OwnKey, HasTask, IsDeleted, OnlyChanged, StoreRuns.Outcome;
    var u := Step(w, a);
    EndStep(w, a);
    StepKeepsInv(w, a);
    StepKeepsInv(u, Elapse(ms));
    WaitingStep(u, ms);
    StepKeepsLease(w, a);
    ReleasedIsThere(w, u, a);
    ClaimedAgain(Step(u, Elapse(ms)), Ended(w, a), token);
  }

  lemma WaitingStep(w: World, ms: nat)
    ensures Step(w, Elapse(ms)).disk == w.disk && Step(w, Elapse(ms)).leaseMs == w.leaseMs
  {
  }

  lemma StepKeepsLease(w: World, a: Action)
    ensures Step(w, a).leaseMs == w.leaseMs
  {
  }

  lemma {:induction false} RunKeepsLease(w: World, actions: seq<Action>)
    ensures Run(w, actions).leaseMs == w.leaseMs
    decreases |actions|
  {
    hide Step;
    if actions != [] {
      StepKeepsLease(w, actions[0]);
      RunKeepsLease(Step(w, actions[0]), actions[1..]);
    }
  }

  lemma ReleasedIsThere(w: World, v: World, a: Action)
    requires a.Release? && OnlyChanged(w.disk, v.disk, Ended(w, a)) && Allowed(w, a)
    requires OwnKey(w.disk.inbox, a.taskId, a.key)
    requires HasTask(w.disk.tasks, a.taskId) && !IsDeleted(w.disk.tasks, a.taskId)
    ensures Ended(w, a) in v.disk.inbox && IsProductKey(a.key)
    ensures HasTask(v.disk.tasks, a.taskId) && !IsDeleted(v.disk.tasks, a.taskId)
    ensures OwnKey(v.disk.inbox, a.taskId, a.key)
  {
    var t :| t in w.disk.tasks && t.taskId == a.taskId;
    assert t in v.disk.tasks;
    forall i | i in v.disk.inbox && i.key == a.key ensures i.taskId == a.taskId {
      assert SlotOf(i) != SlotOf(Ended(w, a)) ==> i in w.disk.inbox;
    }
  }

  /** The lease `i` is the one a delivery of an ordinary effect is completed with. */
  predicate DeliveredBy(w: World, a: Action, i: Item)
    requires a.CompleteDelivery?
  {
    && i in w.disk.inbox && SlotOf(i) == Slot(a.consumer, a.key)
    && i.delivery.Leased? && i.delivery.token == a.token && i.delivery.expiresAt > w.now
  }

  lemma CompletedHadItem(d: Disk, cap: Capacity, consumer: Id, key: EffectKey, token: Id, now: int)
    requires CompleteOutbox(d, cap, consumer, key, token, now).reply == Ok(Finished)
    ensures FindItem(d.inbox, Slot(consumer, key)).Some?
  {
  }

  lemma CompleteOutcome(w: World, a: Action)
    requires a.CompleteDelivery?
    ensures StoreRuns.Outcome(w, a) == CompleteOutbox(w.disk, w.cap, a.consumer, a.key, a.token, w.now)
  {
    hide CompleteOutbox;
  }

  lemma DeliveryStep(w: World, a: Action) returns (i: Item)
    requires Inv(w) && a.CompleteDelivery? && Answered(w, a)
    ensures DeliveredBy(w, a, i) && OnlyChanged(w.disk, Step(w, a).disk, i.(delivery := Completed(w.now, None)))
  {
    hide OnlyChanged, CompleteOutbox, FindItem, Allowed, Good, StoreRuns.Outcome;
    CompleteOutcome(w, a);
    CompletedHadItem(w.disk, w.cap, a.consumer, a.key, a.token, w.now);
    i := FindItem(w.disk.inbox, Slot(a.consumer, a.key)).value;
    OutboxCompletionIsStored(w.disk, w.cap, a.consumer, a.key, a.token, w.now, i);
  }

  /** In every reachable store the answered completion of an ordinary delivery is recorded for the
      lease it was made with, with nothing else changed, and the delivery is not handed out again. */
  lemma {:induction false} AnsweredDeliveryIsOnDisk(
    now: int, cap: Capacity, leaseMs: int, before: seq<Action>, a: Action, token: Id)
    requires ValidLease(leaseMs) && a.CompleteDelivery? && Answered(Run(Init(now, cap, leaseMs), before), a)
    ensures
      var w := Run(Init(now, cap, leaseMs), before);
      var v := Step(w, a);
      && (exists i :: DeliveredBy(w, a, i) && OnlyChanged(w.disk, v.disk, i.(delivery := Completed(w.now, None))))
      && StoreRuns.Outcome(v, ClaimDelivery(a.consumer, a.key, token)).reply == Ok(Undefined)
  {
    hide Run, Step, Inv, OnlyChanged, StoreRuns.Outcome;
    ReachableInv(now, cap, leaseMs, before);
    var w := Run(Init(now, cap, leaseMs), before);
    var i := DeliveryStep(w, a);
    StepKeepsInv(w, a);
    EndIsThere(w.disk, Step(w, a).disk, i.(delivery := Completed(w.now, None)));
    DeliveredIsNotClaimed(Step(w, a), i.(delivery := Completed(w.now, None)), token);
  }

  lemma DeliveredIsNotClaimed(w: World, i: Item, token: Id)
    requires Inv(w) && i in w.disk.inbox && i.delivery.Completed?
    ensures StoreRuns.Outcome(w, ClaimDelivery(i.consumer, i.key, token)).reply == Ok(Undefined)
  {
    FindsItem(w.disk.inbox, i);
  }

  // ---- Where completions come from ----------------------------------------------------------------------

  lemma {:induction false} RunMore(w: World, actions: seq<Action>, a: Action)
    ensures Run(w, actions + [a]) == Step(Run(w, actions), a)
    decreases |actions|
  {
    hide Step;
    if actions == [] {
      assert [] + [a] == [a] && [a][1..] == [];
    } else {
      assert (actions + [a])[1..] == actions[1..] + [a];
      RunMore(Step(w, actions[0]), actions[1..], a);
    }
  }

  /** The completion `i` is what this step answered and stored. */
  ghost predicate CompletedBy(w: World, a: Action, i: Item) {
    a.Complete? && Answered(w, a) && Ended(w, a) == i
  }

  lemma CompletionStep(w: World, a: Action, i: Item)
    requires Inv(w) && i in Step(w, a).disk.inbox && i.delivery.Completed? && i.delivery.result.Some?
    ensures i in w.disk.inbox || CompletedBy(w, a, i)
  {
    if Allowed(w, a) && Room(w.disk) {
      if WritesTask(a) {
        TasksOnly(w, a);
      } else if Claims(a) {
        ClaimsOnlyDeliver(w, a);
      } else if a.Complete? {
        CompleteStep(w, a, i);
      } else if !a.Elapse? {
        LeasesOnlyDeliver(w, a);
      }
    }
  }

  lemma CompleteStep(w: World, a: Action, i: Item)
    requires Inv(w) && a.Complete? && i in Step(w, a).disk.inbox
    ensures i in w.disk.inbox || CompletedBy(w, a, i)
  {
    hide FinishEffect, HeldLease, Inv;
    if Answered(w, a) {
      EndStep(w, a);
    } else {
      UnansweredEnd(w, a);
    }
  }

  lemma UnansweredEnd(w: World, a: Action)
    requires Inv(w) && a.Complete? && !Answered(w, a)
    ensures Step(w, a).disk == w.disk
  {
    hide FinishEffect, HeldLease, OnlyChanged;
    if 1 <= a.fence <= MAX_SAFE_INTEGER {
      if Room(w.disk) {
        FinishIsStored(w.disk, w.cap, a.consumer, a.taskId, a.key, a.token, a.fence, Some(a.result), w.now);
      }
    } else {
      RefusedFence(w.disk, w.cap, a.consumer, a.taskId, a.key, a.token, a.fence, Some(a.result), w.now);
    }
  }

  /** Nothing is ever taken for done that was not: every result in a reachable store was recorded by
      a completion of the run, answered to the holder of the lease at that moment. */
  lemma {:induction false} ResultsCameFromCompletion(
    now: int, cap: Capacity, leaseMs: int, actions: seq<Action>, i: Item)
    requires ValidLease(leaseMs) && i in Run(Init(now, cap, leaseMs), actions).disk.inbox
    requires i.delivery.Completed? && i.delivery.result.Some?
    ensures exists k ::
              0 <= k < |actions| && CompletedBy(Run(Init(now, cap, leaseMs), actions[..k]), actions[k], i)
    decreases |actions|
  {
    hide Step, CompletedBy, Inv;
    if actions != [] {
      var front, a := actions[..|actions| - 1], actions[|actions| - 1];
      assert actions == front + [a];
      RunMore(Init(now, cap, leaseMs), front, a);
      var w := Run(Init(now, cap, leaseMs), front);
      ReachableInv(now, cap, leaseMs, front);
      CompletionStep(w, a, i);
      if i in w.disk.inbox {
        ResultsCameFromCompletion(now, cap, leaseMs, front, i);
        var k :| 0 <= k < |front| && CompletedBy(Run(Init(now, cap, leaseMs), front[..k]), front[k], i);
        assert front[..k] == actions[..k];
      } else {
        assert front == actions[..|actions| - 1];
      }
    }
  }
}
