/** What a projection writes into the product store, field by field, and that what the provider
    delivered reaches the store and waits there until the product takes it. */
module ProjectionEffects {
  import opened Prelude
  import opened Lists
  import opened TaskContract
  import opened TaskStore
  import opened StoreGate
  import opened StoreSteps
  import opened StoreEffects
  import opened StoreRuns
  import J = JournalRecord
  import P = Projection
  import opened ProjectionRuns

  // ---- Reading the journal -----------------------------------------------------------------------------

  /** The codes that say that only the contact was lost: the two of the runtime itself, and those whose
      text mentions one of the words, unless the provider said so. */
  lemma LocalCodesExactly(code: ErrorCode)
    ensures !code.OtherCode? ==> (P.IsLocalSyncCode(code) <==> code == SubmissionUnknown || code == AccountSessionChanged)
    ensures code.OtherCode? && "dreamina_official_" <= code.text ==> !P.IsLocalSyncCode(code)
    ensures code.OtherCode? && !("dreamina_official_" <= code.text) ==>
      (P.IsLocalSyncCode(code) <==>
        exists w, i :: 0 <= i <= |code.text| && w <= code.text[i..] &&
          w in ["query", "transport", "parse", "state_busy", "state_fenced", "login", "session", "unknown",
                "origin_not_trusted"])
  {
    if code.OtherCode? {
      forall w | w in P.SYNC_WORDS && P.Mentions(code.text, w)
        ensures exists i :: 0 <= i <= |code.text| && w <= code.text[i..]
      {
      }
    }
  }

  /** Which journal records stand for which product lifecycle and outcome, seen from the product: a
      failure that only means that the local side lost track of submitted work is no failure. */
  lemma LifecycleReadsExactly(r: J.Record)
    ensures
      var s := P.FromJournal(r);
      var lost := r.state == J.Failed && r.submitId.Some? && r.errorCode.Some? && P.IsLocalSyncCode(r.errorCode.value);
      var stopped := r.state == J.Cancelled && r.submitId.Some? && r.errorCode == Some(LocalWaitStopped);
      var official :=
        || r.officialStatus == Some(StatusFailed)
        || r.errorCode == Some(OfficialFailed) || r.errorCode == Some(OfficialIncomplete);
      && (s.lifecycle == QueuedLocal <==> r.state == J.Queued)
      && (s.lifecycle == Submitting <==> r.state == J.Pending)
      && (s.lifecycle == SubmissionUncertain <==> r.state == J.Unknown)
      && (s.lifecycle == Running <==> r.state == J.Accepted && r.officialStatus == Some(StatusProcessing))
      && (s.lifecycle == ProviderAccepted <==>
            (r.state == J.Accepted && r.officialStatus != Some(StatusProcessing)) || lost || stopped)
      && (s.outcome == Some(Success) <==> r.state == J.Succeeded)
      && (s.outcome == Some(Cancellation) <==> r.state == J.Cancelled && !stopped)
      && (s.outcome == Some(FailureOrCancellation) <==> r.state == J.Failed && !lost && official)
      && (s.outcome == Some(Failure) <==> r.state == J.Deleted || (r.state == J.Failed && !lost && !official))
  {
  }

  /** What the product is told about the contact to the provider, and when there is a result to make. */
  lemma SyncReadsExactly(r: J.Record)
    ensures
      var s := P.FromJournal(r);
      && (s.sync == SyncBlockedAccount <==>
            r.errorCode == Some(AccountSessionChanged) && (r.state == J.Accepted || r.state == J.Succeeded))
      && (s.sync == SyncUncertain <==> r.state == J.Unknown)
      && (s.sync == SyncRetryWait <==>
            && r.errorCode.Some? && P.IsLocalSyncCode(r.errorCode.value)
            && (|| (r.state == J.Accepted && r.errorCode != Some(AccountSessionChanged))
                || (r.state == J.Failed && r.submitId.Some?)))
      && s.sync != SyncConflict
      && (s.sync != SyncOk ==> s.lastSyncError == r.errorCode) && (s.sync == SyncOk ==> s.lastSyncError.None?)
      && s.result == (if r.state == J.Succeeded then PendingMaterialization else NotAvailable)
  {
  }

  // ---- Outputs -----------------------------------------------------------------------------------------------

  /** The outputs of a task are those of the provider, each in its place and not yet taken. */
  ghost predicate Carries(outputs: seq<TaskOutput>, given: seq<J.ProviderOutput>) {
    && |outputs| == |given|
    && forall i :: 0 <= i < |given| ==>
         && outputs[i].index == given[i].index && outputs[i].media == given[i].media
         && outputs[i].providerRef == Some(given[i].ref) && outputs[i].assetId.None? && outputs[i].errorCode.None?
  }

  /** Nothing was delivered for the task yet. */
  predicate AwaitsOutputs(current: Option<StoredTask>) {
    current.Some? ==>
      current.value.outputs == [] && (current.value.result == NotAvailable || current.value.result == PendingMaterialization)
  }

  predicate Delivers(r: J.Record) {
    r.outputs.Some? && r.outputs.value != []
  }

  /** What the provider delivered is projected into a task that awaits it, as it is, and waits for
      materialization, unless the task is only being deleted. In every other case a task that has a
      result keeps it with its outputs, and a task without one gets none: only a success has a result
      to make. */
  lemma OutputsAreProjected(key: Id, r: J.Record, current: Option<StoredTask>)
    requires P.Project(key, r, current).Ok?
    ensures
      var next := P.Project(key, r, current).value;
      if Delivers(r) && AwaitsOutputs(current) && !(r.state == J.Deleted && current.Some?) then
        Carries(next.outputs, r.outputs.value) && next.result == PendingMaterialization
      else if current.Some? && (r.state == J.Deleted || current.value.result != NotAvailable) then
        next.outputs == current.value.outputs && next.result == current.value.result
      else
        && next.outputs == [] && (next.result == PendingMaterialization || next.result == NotAvailable)
        && (next.result == PendingMaterialization <==>
              r.state == J.Succeeded || (r.state == J.Deleted && r.officialStatus == Some(StatusCompleted)))
  {
    if r.state == J.Deleted {
      if current.None? { RecordOutputs(key, r.(state := P.DeletedProviderState(r)), None); }
    } else {
      RecordOutputs(key, r, current);
    }
  }

  lemma RecordOutputs(key: Id, r: J.Record, current: Option<StoredTask>)
    requires r.state != J.Deleted
    ensures
      var next := P.ProjectedTask(key, r, current);
      if Delivers(r) && AwaitsOutputs(current) then
        Carries(next.outputs, r.outputs.value) && next.result == PendingMaterialization
      else if current.Some? && current.value.result != NotAvailable then
        next.outputs == current.value.outputs && next.result == current.value.result
      else
        next.outputs == [] && next.result == (if r.state == J.Succeeded then PendingMaterialization else NotAvailable)
  {
    SyncReadsExactly(r);
    assert P.ProviderOutputs(r) != [] <==> Delivers(r);
  }

  /** The other fields of a projected task: the record's, where it has them, and otherwise what was
      there. A bound account stays; hidden and deleted tasks stay so; time does not run back. */
  lemma FieldsAreProjected(key: Id, r: J.Record, current: Option<StoredTask>)
    requires P.Project(key, r, current).Ok? && r.state != J.Deleted
    ensures
      var next := P.Project(key, r, current).value;
      && next.taskId == key && next.recordId == key && next.requestHash == r.requestHash && next.journalVersion == r.version
      && next.account ==
           (if current.Some? && current.value.account.Some? then current.value.account
            else if r.account.Some? then Some(r.account.value.binding) else None)
      && next.officialStatus ==
           (if r.officialStatus.Some? then r.officialStatus else if current.Some? then current.value.officialStatus else None)
      && (r.task.Some? ==>
            && next.mode == Some(r.task.value.mode) && next.operation == Some(r.task.value.operation)
            && next.model == Some(r.task.value.model) && next.createdAt == Some(r.task.value.createdAt)
            && (r.task.value.clientOperationId.Some? ==> next.clientOperationId == r.task.value.clientOperationId.value)
            && (r.task.value.context.Some? ==> next.context == r.task.value.context.value))
      && (r.task.None? && current.Some? ==>
            && next.mode == current.value.mode && next.operation == current.value.operation
            && next.model == current.value.model && next.createdAt == current.value.createdAt
            && next.clientOperationId == current.value.clientOperationId && next.context == current.value.context)
      && (current.None? ==>
            && next.updatedAt == r.updatedAt && next.visibility == (if r.hidden then HiddenTask else Visible)
            && (r.task.None? ==> next.clientOperationId == key && next.context == LegacyUnscoped))
      && (current.Some? ==>
            && next.updatedAt >= current.value.updatedAt && next.updatedAt >= r.updatedAt
            && (next.updatedAt == current.value.updatedAt || next.updatedAt == r.updatedAt)
            && (next.visibility == DeletedTask <==> current.value.visibility == DeletedTask)
            && (next.visibility == HiddenTask <==>
                  current.value.visibility != DeletedTask && (current.value.visibility == HiddenTask || r.hidden)))
  {
  }

  /** A task is projected from the first image of its record as the record reads, and over a stored
      task it only moves on: whichever of the two is further decides. */
  lemma LifecycleIsProjected(key: Id, r: J.Record, current: Option<StoredTask>)
    requires P.Project(key, r, current).Ok? && r.state != J.Deleted
    ensures
      var next, s := P.Project(key, r, current).value, P.FromJournal(r);
      && (current.None? ==> next.lifecycle == s.lifecycle && next.outcome == s.outcome && next.sync == s.sync)
      && (current.Some? ==>
            var t := current.value;
            && (if t.lifecycle == Terminal || Rank(s.lifecycle) < Rank(t.lifecycle)
                then next.lifecycle == t.lifecycle && next.outcome == t.outcome
                else next.lifecycle == s.lifecycle && next.outcome == s.outcome)
            && next.sync ==
                 (if t.sync == SyncConflict || (t.lifecycle == Terminal && s.lifecycle == Terminal && s.outcome != t.outcome)
                  then SyncConflict else s.sync))
  {
  }

  /** Projecting a deletion marks the task deleted and keeps everything else of a stored one. */
  lemma DeletionIsProjected(key: Id, r: J.Record, current: Option<StoredTask>)
    requires r.state == J.Deleted && P.Project(key, r, current).Ok?
    ensures
      var next := P.Project(key, r, current).value;
      && next.visibility == DeletedTask && next.journalVersion == r.version
      && (current.Some? ==>
            && next == current.value.(visibility := DeletedTask, journalVersion := r.version, updatedAt := next.updatedAt)
            && next.updatedAt == Max(current.value.updatedAt, r.updatedAt))
      && (current.None? ==>
            && (next.outcome == Some(Success) <==> r.officialStatus == Some(StatusCompleted))
            && (next.lifecycle == QueuedLocal <==>
                  r.submitId.None? && r.officialStatus != Some(StatusCompleted) && r.officialStatus != Some(StatusFailed)
                  && r.officialStatus != Some(StatusCancelled)))
  {
  }

  // ---- The loop ------------------------------------------------------------------------------------------

  /** A round that writes answers with the task it stored: the projection of the record over the task
      it had read. */
  lemma RoundStores(seen: Disk, found: Disk, cap: Capacity, key: Id, r: J.Record, name: EffectKey, now: int)
    requires SafeVersions(seen)
    ensures
      var round := ProjectRound(seen, found, cap, key, r, name, now);
      round.Answered? && round.written.Some? ==>
        && round.reply.Projected?
        && P.Project(key, r, FindTask(seen.tasks, key)).Ok?
        && round.reply.stored ==
             P.Project(key, r, FindTask(seen.tasks, key)).value.(taskId := key, version := round.reply.stored.version)
  {
    var current := FindTask(seen.tasks, key);
    var next := P.Project(key, r, current);
    if next.Ok? && (current.Some? ==> P.SameIdentity(key, r, current.value)) {
      SwapReply(found, cap, key, if current.Some? then current.value.version else 0, next.value,
                ProjectionEffect(key, r.version, name), now);
    }
  }

  /** When the loop has written, the task it answers with carries what the provider delivered, if the
      task it read in that round was waiting for it. */
  lemma LoopDeliversOutputs(
    seen: seq<Disk>, found: seq<Disk>, cap: Capacity, key: Id, r: J.Record, name: EffectKey, now: int)
    requires |seen| == |found| == MAX_ATTEMPTS
    requires forall k :: 0 <= k < MAX_ATTEMPTS ==> SafeVersions(seen[k])
    requires Delivers(r) && r.state != J.Deleted && FirstAnswer(Rounds(seen, found, cap, key, r, name, now)).Answered?
    requires FirstAnswer(Rounds(seen, found, cap, key, r, name, now)).written.Some?
    ensures
      var outcome := FirstAnswer(Rounds(seen, found, cap, key, r, name, now));
      && outcome.reply.Projected?
      && exists k ::
           && 0 <= k < MAX_ATTEMPTS
           && var current := FindTask(seen[k].tasks, key);
           && (AwaitsOutputs(current) ==>
                 Carries(outcome.reply.stored.outputs, r.outputs.value) && outcome.reply.stored.result == PendingMaterialization)
           && (!AwaitsOutputs(current) && current.value.result != NotAvailable ==>
                 outcome.reply.stored.outputs == current.value.outputs && outcome.reply.stored.result == current.value.result)
  {
    hide ProjectRound, Carries;
    var rounds := Rounds(seen, found, cap, key, r, name, now);
    FirstAnswerComesFrom(rounds);
    var k :| 0 <= k < MAX_ATTEMPTS && rounds[k] == FirstAnswer(rounds);
    RoundStores(seen[k], found[k], cap, key, r, name, now);
    OutputsAreProjected(key, r, FindTask(seen[k].tasks, key));
  }

  // ---- Over runs -------------------------------------------------------------------------------------------

  lemma PutTaskFits(d: Disk, cap: Capacity, task: StoredTask, e: Effect)
    requires Fits(d, cap) && |d.outbox| < cap.maxEffects && (HasTask(d.tasks, task.taskId) || |d.tasks| < cap.maxTasks)
    ensures Fits(PutTask(d, task, e), cap) && task in PutTask(d, task, e).tasks
  {
  }

  /** What the provider delivered is in the store after the projection of its record: over any trace
      of projections, lost races included, product mutations and deliveries, whenever the task is not
      stored yet or awaits its outputs and the store has room, the swap goes through and the stored
      task carries the outputs of the record. */
  lemma {:induction false} OutputsReachTheStore(ws: seq<World>, key: Id, r: J.Record, name: EffectKey)
    requires Trace(ws) && ws[0].disk == EMPTY_DISK && P.Projectable(r)
    requires Delivers(r)
    requires
      var d := Last(ws).disk;
      var current := FindTask(d.tasks, key);
      && !HasEffect(d.outbox, name)
      && |d.outbox| < Last(ws).cap.maxEffects && (current.Some? || |d.tasks| < Last(ws).cap.maxTasks)
      && AwaitsOutputs(current)
      && (current.Some? ==>
            && P.SameIdentity(key, r, current.value) && !P.Rebinds(r, current.value)
            && P.AgreesOnProduct(r, current.value)
            && r.version > current.value.journalVersion && current.value.version < MAX_SAFE_INTEGER)
    ensures
      var w := Last(ws);
      var current := FindTask(w.disk.tasks, key);
      var next := P.Project(key, r, current);
      && next.Ok?
      && var o := CompareAndSwap(w.disk, w.cap, key, VersionOf(current), next.value, ProjectionEffect(key, r.version, name), w.now);
      && o.reply.Ok? && o.reply.value.Stored? && o.reply.value.task in o.disk.tasks && o.reply.value.task.taskId == key
      && Carries(o.reply.value.task.outputs, r.outputs.value) && o.reply.value.task.result == PendingMaterialization
  {
    hide Carries, CompareAndSwap, HasEffect, AwaitsOutputs;
    TraceKeepsHonest(ws);
    TraceKeepsInv(ws, |ws| - 1);
    OutputsReachDisk(Last(ws).disk, Last(ws).cap, key, r, name, Last(ws).now);
  }

  lemma OutputsReachDisk(d: Disk, cap: Capacity, key: Id, r: J.Record, name: EffectKey, now: int)
    requires TasksOk(d.tasks) && Fits(d, cap) && Honest(d) && P.Projectable(r) && Delivers(r) && !HasEffect(d.outbox, name)
    requires
      var current := FindTask(d.tasks, key);
      && |d.outbox| < cap.maxEffects && (current.Some? || |d.tasks| < cap.maxTasks)
      && AwaitsOutputs(current)
      && (current.Some? ==>
            && P.SameIdentity(key, r, current.value) && !P.Rebinds(r, current.value)
            && P.AgreesOnProduct(r, current.value)
            && r.version > current.value.journalVersion && current.value.version < MAX_SAFE_INTEGER)
    ensures
      var current := FindTask(d.tasks, key);
      var next := P.Project(key, r, current);
      && next.Ok?
      && var o :=
           CompareAndSwap(d, cap, key, VersionOf(current), next.value, ProjectionEffect(key, r.version, name), now);
      && o.reply.Ok? && o.reply.value.Stored? && o.reply.value.task in o.disk.tasks && o.reply.value.task.taskId == key
      && Carries(o.reply.value.task.outputs, r.outputs.value) && o.reply.value.task.result == PendingMaterialization
  {
    hide Carries, CompareAndSwap, HasEffect, AwaitsOutputs, HasTask, FindTask, P.Project, Save, Honest, TasksOk, Fits;
    var current := FindTask(d.tasks, key);
    ProjectionPasses(d, cap, key, r, name, now);
    var next := P.Project(key, r, current).value;
    ReadyIsNotDeleted(r);
    OutputsAreProjected(key, r, current);
    NewOrKnown(d, key, current);
    SavedTaskIsThere(d, cap, SwappedTask(current, key, next),
                     ProjectedEffect(ProjectionEffect(key, r.version, name), SwappedTask(current, key, next).version, now));
  }

  lemma ReadyIsNotDeleted(r: J.Record)
    requires P.Projectable(r) && Delivers(r)
    ensures r.state == J.Succeeded
  {
  }

  lemma NewOrKnown(d: Disk, key: Id, current: Option<StoredTask>)
    requires current == FindTask(d.tasks, key)
    ensures HasTask(d.tasks, key) <==> current.Some?
  {
  }

  lemma SavedTaskIsThere(d: Disk, cap: Capacity, task: StoredTask, e: Effect)
    requires Fits(d, cap) && |d.outbox| < cap.maxEffects && (HasTask(d.tasks, task.taskId) || |d.tasks| < cap.maxTasks)
    ensures
      var o := Save(d, PutTask(d, task, e), cap, Stored(task));
      o.reply == Ok(Stored(task)) && task in o.disk.tasks
  {
    PutTaskFits(d, cap, task, e);
    FittingIsSaved(d, PutTask(d, task, e), cap, Stored(task));
  }

  /** Delivered and not yet taken. */
  predicate Waiting(t: StoredTask) {
    t.result == PendingMaterialization && t.outputs != []
  }

  lemma ProjectionKeepsWaiting(w: World, a: Action, t: StoredTask)
    requires a.Project? && Faithful(w, a) && FindTask(w.disk.tasks, a.taskId) == Some(t) && Waiting(t)
    ensures a.task.outputs == t.outputs && a.task.result == t.result
  {
    var key, r :| P.Projectable(r) && P.Project(key, r, FindTask(w.disk.tasks, a.taskId)) == Ok(a.task);
    OutputsAreProjected(key, r, Some(t));
  }

  lemma MutationKeepsWaiting(t: StoredTask, m: ProductMutation)
    requires ParsableMutation(m) && Mutated(t, m).Ok? && Waiting(t)
    ensures Waiting(Mutated(t, m).value) ==> Mutated(t, m).value.outputs == t.outputs
    ensures Mutated(t, m).value.result == PendingMaterialization ==> Mutated(t, m).value.outputs == t.outputs
  {
  }

  /** Where a task that was not there before the step comes from. */
  ghost predicate ComesFrom(w: World, a: Action, t: StoredTask, u: StoredTask) {
    if a.Project? then u.outputs == a.task.outputs && u.result == a.task.result
    else a.Mutate? && ParsableMutation(a.mutation) && Mutated(t, a.mutation) == Ok(u)
  }

  lemma {:induction false} NewImageComesFrom(w: World, a: Action, t: StoredTask, u: StoredTask)
    requires Inv(w) && t in w.disk.tasks && u in Step(w, a).disk.tasks && u.taskId == t.taskId && u !in w.disk.tasks
    ensures WritesTask(a) && FindTask(w.disk.tasks, a.taskId) == Some(t) && ComesFrom(w, a, t, u)
  {
    hide FindTask, Good, Mutated, StoreRuns.Outcome;
    TasksAfter(w, a, u);
    TaskWrites(w, a);
    WrittenName(w, a, u);
    assert Unique(w.disk.tasks, TaskKey) by { UniqueTasks(w); }
    FindsTask(w.disk.tasks, t);
  }

  lemma UniqueTasks(w: World)
    requires Inv(w)
    ensures Unique(w.disk.tasks, TaskKey)
  {
  }

  lemma WrittenName(w: World, a: Action, u: StoredTask)
    requires WritesTask(a) && TaskOf(w, a) == Some(u)
    requires a.Mutate? ==> ParsableMutation(a.mutation)
    ensures u.taskId == a.taskId
  {
    if a.Mutate? {
      MutationKeepsId(FindTask(w.disk.tasks, a.taskId).value, a.mutation);
    }
  }

  lemma {:induction false} StepKeepsWaiting(w: World, a: Action, t: StoredTask, u: StoredTask)
    requires Inv(w) && (Faithful(w, a) || Step(w, a) == w)
    requires t in w.disk.tasks && u in Step(w, a).disk.tasks && u.taskId == t.taskId && Waiting(t)
    ensures u.result == PendingMaterialization ==> u.outputs == t.outputs
  {
    hide Step, Good, FindTask, Mutated, Faithful, ParsableMutation;
    if u in w.disk.tasks {
      UniqueTasks(w);
      UniqueMember(w.disk.tasks, TaskKey, t, u);
    } else {
      NewImageComesFrom(w, a, t, u);
      if a.Project? {
        ProjectionKeepsWaiting(w, a, t);
      } else {
        MutationKeepsWaiting(t, a.mutation);
      }
    }
  }

  /** What was delivered waits for the product: as long as the task stays in the store and no
      materialization has begun, no projection, lost race, event, delivery or compaction changes or
      loses the outputs that the provider gave. */
  lemma {:induction false} DeliveredOutputsWait(ws: seq<World>, i: nat, t: StoredTask, u: StoredTask)
    requires Trace(ws) && i < |ws| && t in ws[i].disk.tasks && Waiting(t)
    requires forall j :: i <= j < |ws| ==> HasTaskOf(ws[j], t.taskId)
    requires u in Last(ws).disk.tasks && u.taskId == t.taskId
    ensures ResultRank(PendingMaterialization) <= ResultRank(u.result)
    ensures u.result == PendingMaterialization ==> u.outputs == t.outputs
  {
    hide Step, Honestly;
    TraceKeepsInv(ws, i);
    if i == |ws| - 1 {
      UniqueMember(ws[i].disk.tasks, TaskKey, t, u);
    } else {
      var front := ws[..|ws| - 1];
      assert HasTaskOf(ws[|ws| - 2], t.taskId);
      var s :| s in Last(front).disk.tasks && s.taskId == t.taskId;
      DeliveredOutputsWait(front, i, t, s);
      WaitsOrMovesOn(ws, t, s, u);
    }
  }

  lemma {:induction false} WaitsOrMovesOn(ws: seq<World>, t: StoredTask, s: StoredTask, u: StoredTask)
    requires Trace(ws) && |ws| > 1 && s in ws[|ws| - 2].disk.tasks && u in Last(ws).disk.tasks && u.taskId == s.taskId
    requires Waiting(t) && (s.result == PendingMaterialization ==> s.outputs == t.outputs)
    requires ResultRank(PendingMaterialization) <= ResultRank(s.result)
    ensures ResultRank(PendingMaterialization) <= ResultRank(u.result)
    ensures u.result == PendingMaterialization ==> u.outputs == t.outputs
  {
    hide Step, Trace;
    var w, a := LastStep(ws);
    ResultMovesOn(w, a, s, u);
    if s.result == PendingMaterialization {
      StepKeepsWaiting(w, a, s, u);
    }
  }

  lemma ResultMovesOn(w: World, a: Action, s: StoredTask, u: StoredTask)
    requires Inv(w) && s in w.disk.tasks && u in Step(w, a).disk.tasks && u.taskId == s.taskId
    ensures ResultAdvances(s, u)
  {
    hide StoreRuns.Outcome;
    if Allowed(w, a) && StoreSteps.Room(w.disk) {
      StepAdvancesResult(w, a, s, u);
    } else {
      UniqueMember(w.disk.tasks, TaskKey, s, u);
    }
  }
}
