/** Projecting the submission journal into the product store. */
module Projection {
  import opened Prelude
  import opened Lists
  import opened TaskContract
  import opened TaskStore
  import J = JournalRecord
  import R = Reconciler

  // ---- Reading a journal record as a product state -------------------------------------------------------

  const SYNC_WORDS := ["query", "transport", "parse", "state_busy", "state_fenced", "login", "session", "unknown",
                       "origin_not_trusted"]

  predicate Mentions(text: string, word: string) {
    exists i :: 0 <= i <= |text| && word <= text[i..]
  }

  /** Codes that say the local side lost track, not that the provider failed. */
  predicate IsLocalSyncCode(code: ErrorCode) {
    match code
    case SubmissionUnknown => true
    case AccountSessionChanged => true
    case OtherCode(text) => !("dreamina_official_" <= text) && exists w :: w in SYNC_WORDS && Mentions(text, w)
    case _ => false
  }

  predicate AmbiguousFailure(r: J.Record) {
    r.officialStatus == Some(StatusFailed) || r.errorCode == Some(OfficialFailed) || r.errorCode == Some(OfficialIncomplete)
  }

  function Base(lifecycle: Lifecycle, outcome: Option<Outcome>): TaskState {
    TaskState(lifecycle, outcome, SyncOk, NotAvailable, [], None, LegacyUnscoped, None, None)
  }

  function Blocked(s: TaskState, code: Option<ErrorCode>): TaskState {
    s.(sync := SyncBlockedAccount, lastSyncError := code)
  }

  function Retrying(s: TaskState, code: Option<ErrorCode>): TaskState {
    s.(sync := SyncRetryWait, lastSyncError := code)
  }

  /** `dreaminaTaskFromRuntimeJournal`. */
  function FromJournal(r: J.Record): TaskState {
    match r.state
    case Queued => Base(QueuedLocal, None)
    case Pending => Base(Submitting, None)
    case Unknown => Base(SubmissionUncertain, None).(sync := SyncUncertain, lastSyncError := r.errorCode)
    case Accepted =>
      var s := Base(if r.officialStatus == Some(StatusProcessing) then Running else ProviderAccepted, None);
      if r.errorCode == Some(AccountSessionChanged) then Blocked(s, r.errorCode)
      else if r.errorCode.Some? && IsLocalSyncCode(r.errorCode.value) then Retrying(s, r.errorCode)
      else s
    case Succeeded =>
      var s := Base(Terminal, Some(Success)).(result := PendingMaterialization);
      if r.errorCode == Some(AccountSessionChanged) then Blocked(s, r.errorCode) else s
    case Cancelled =>
      if r.submitId.Some? && r.errorCode == Some(LocalWaitStopped) then Base(ProviderAccepted, None)
      else Base(Terminal, Some(Cancellation))
    case Failed =>
      if r.submitId.Some? && r.errorCode.Some? && IsLocalSyncCode(r.errorCode.value)
      then Retrying(Base(ProviderAccepted, None), r.errorCode)
      else Base(Terminal, Some(if AmbiguousFailure(r) then FailureOrCancellation else Failure))
    case Deleted => Base(Terminal, Some(Failure))
  }

  // ---- Merging and projecting ------------------------------------------------------------------------------

  /** `mergeProviderState`: the stored lifecycle is never taken back, and a decided outcome that
      the journal contradicts is a conflict. */
  function Merge(current: Option<StoredTask>, incoming: TaskState): TaskState {
    if current.None? then
      incoming
    else
      var t := current.value;
      var contradicted := t.lifecycle == Terminal && incoming.lifecycle == Terminal && incoming.outcome != t.outcome;
      var behind := t.lifecycle != Terminal && Rank(incoming.lifecycle) < Rank(t.lifecycle);
      var sync := if contradicted || t.sync == SyncConflict then SyncConflict else incoming.sync;
      TaskState(
        if t.lifecycle == Terminal || behind then t.lifecycle else incoming.lifecycle,
        if t.lifecycle == Terminal || behind then t.outcome else incoming.outcome,
        sync, incoming.result, incoming.outputs, incoming.account, incoming.context, incoming.observation,
        if sync == SyncConflict && incoming.lastSyncError.None? then t.lastSyncError else incoming.lastSyncError)
  }

  function ArtifactOf(o: J.ProviderOutput): TaskOutput {
    TaskOutput(o.index, o.media, Some(o.ref), None, None)
  }

  function Artifacts(outputs: seq<J.ProviderOutput>): (r: seq<TaskOutput>)
    ensures |r| == |outputs|
    ensures forall i :: 0 <= i < |r| ==> r[i] == ArtifactOf(outputs[i])
  {
    if outputs == [] then [] else Artifacts(outputs[..|outputs| - 1]) + [ArtifactOf(outputs[|outputs| - 1])]
  }

  function ProviderOutputs(r: J.Record): seq<TaskOutput> {
    if r.outputs.Some? then Artifacts(r.outputs.value) else []
  }

  function OrElse<T>(a: Option<T>, b: Option<T>): Option<T> {
    if a.Some? then a else b
  }

  datatype ProjectionError = RecordInvalid | IdentityChanged | BindingChanged

  predicate SameIdentity(key: Id, r: J.Record, t: StoredTask) {
    t.requestHash == r.requestHash && t.recordId == key
  }

  predicate Rebinds(r: J.Record, t: StoredTask) {
    t.account.Some? && r.account.Some? && t.account.value != r.account.value.binding
  }

  predicate CanProjectOutputs(r: J.Record, current: Option<StoredTask>) {
    && ProviderOutputs(r) != []
    && (current.Some? ==>
          current.value.outputs == []
          && (current.value.result == NotAvailable || current.value.result == PendingMaterialization))
  }

  predicate KeepsResult(r: J.Record, current: Option<StoredTask>) {
    current.Some? && current.value.result != NotAvailable && !CanProjectOutputs(r, current)
  }

  function ProjectedVisibility(r: J.Record, current: Option<StoredTask>): Visibility {
    if current.Some? && current.value.visibility == DeletedTask then DeletedTask
    else if (current.Some? && current.value.visibility == HiddenTask) || r.hidden then HiddenTask
    else Visible
  }

  function ContextOf(r: J.Record): Option<Context> {
    if r.task.Some? then r.task.value.context else None
  }

  function OperationOf(r: J.Record): Option<Id> {
    if r.task.Some? then r.task.value.clientOperationId else None
  }

  function BindingOf(r: J.Record): Option<Id> {
    if r.account.Some? then Some(r.account.value.binding) else None
  }

  /** The task text is `dreamina:` followed by the record id, so the record id stands for both. The
      version is the store's to assign. */
  function ProjectedTask(key: Id, r: J.Record, current: Option<StoredTask>): StoredTask {
    var s := Merge(current, FromJournal(r));
    StoredTask(
      key,
      ProjectedVisibility(r, current),
      if OperationOf(r).Some? then OperationOf(r).value
      else if current.Some? then current.value.clientOperationId else key,
      s.lifecycle,
      s.outcome,
      s.sync,
      if KeepsResult(r, current) then current.value.result
      else if CanProjectOutputs(r, current) then PendingMaterialization else s.result,
      r.requestHash,
      0,
      if KeepsResult(r, current) then current.value.outputs
      else if CanProjectOutputs(r, current) then ProviderOutputs(r) else s.outputs,
      if ContextOf(r).Some? then ContextOf(r).value
      else if current.Some? then current.value.context else LegacyUnscoped,
      OrElse(if current.Some? then current.value.account else None, BindingOf(r)),
      OrElse(r.officialStatus, if current.Some? then current.value.officialStatus else None),
      if s.lastSyncError.Some? then s.lastSyncError
      else if s.sync == SyncConflict && current.Some? then current.value.lastSyncError else None,
      OrElse(if r.task.Some? then Some(r.task.value.mode) else None, if current.Some? then current.value.mode else None),
      OrElse(if r.task.Some? then Some(r.task.value.operation) else None,
             if current.Some? then current.value.operation else None),
      OrElse(if r.task.Some? then Some(r.task.value.model) else None, if current.Some? then current.value.model else None),
      OrElse(if r.task.Some? then Some(r.task.value.createdAt) else None,
             if current.Some? then current.value.createdAt else None),
      if current.Some? then Max(current.value.updatedAt, r.updatedAt) else r.updatedAt,
      key,
      r.version)
  }

  /** `projectRecord`. */
  function ProjectRecord(key: Id, r: J.Record, current: Option<StoredTask>): Result<StoredTask, ProjectionError> {
    if current.Some? && !SameIdentity(key, r, current.value) then Err(IdentityChanged)
    else if current.Some? && Rebinds(r, current.value) then Err(BindingChanged)
    else Ok(ProjectedTask(key, r, current))
  }

  function DeletedProviderState(r: J.Record): J.JournalState {
    match r.officialStatus
    case Some(StatusCompleted) => J.Succeeded
    case Some(StatusFailed) => J.Failed
    case Some(StatusCancelled) => J.Cancelled
    case _ => if r.submitId.Some? then J.Accepted else J.Queued
  }

  /** `projectDeletedRecord`. */
  function ProjectDeleted(key: Id, r: J.Record, current: Option<StoredTask>): Result<StoredTask, ProjectionError> {
    if current.Some? then
      Ok(current.value.(visibility := DeletedTask,
                        journalVersion := r.version,
                        updatedAt := Max(current.value.updatedAt, r.updatedAt)))
    else
      Ok(ProjectedTask(key, r.(state := DeletedProviderState(r)), None).(visibility := DeletedTask))
  }

  function Project(key: Id, r: J.Record, current: Option<StoredTask>): Result<StoredTask, ProjectionError> {
    if r.state == J.Deleted then ProjectDeleted(key, r, current) else ProjectRecord(key, r, current)
  }

  /** Output indexes count up from zero. */
  predicate InSequence(outputs: seq<J.ProviderOutput>) {
    forall i :: 0 <= i < |outputs| ==> outputs[i].index == i
  }

  /** `validateJournalRecord`. */
  predicate Projectable(r: J.Record) {
    && 1 <= r.version <= MAX_SAFE_INTEGER
    && (ContextOf(r).Some? ==> ValidContext(ContextOf(r).value))
    && (r.errorCode.Some? ==> SafeErrorCode(r.errorCode.value))
    && (r.task.Some? ==> r.task.value.mode != Audio)
    && (r.outputs.Some? ==>
          && r.state == J.Succeeded
          && r.officialStatus == Some(StatusCompleted)
          && 1 <= |r.outputs.value| <= 4
          && InSequence(r.outputs.value)
          && forall o :: o in r.outputs.value ==> r.task.Some? && o.media == r.task.value.mode)
  }

  // ---- Properties ----------------------------------------------------------------------------------------------

  /** What projections and product mutations keep of a stored task: nothing to deliver, nothing
      delivered. */
  predicate ResultsMatchOutputs(t: StoredTask) {
    t.result == NotAvailable ==> t.outputs == []
  }

  /** The journal and the store were written with different ideas of valid outputs: the journal
      wants distinct indexes in any order, the projector wants 0, 1, 2, 3. A valid journal record
      can be projected exactly when its outputs are in sequence. */
  lemma ProjectableExactly(r: J.Record)
    requires J.ValidRecord(r)
    requires ContextOf(r).Some? ==> ValidContext(ContextOf(r).value)
    requires r.errorCode.Some? ==> SafeErrorCode(r.errorCode.value)
    ensures Projectable(r) <==> (r.outputs.Some? ==> InSequence(r.outputs.value))
  {
  }

  lemma OutOfSequenceOutputsExist()
    ensures exists r ::
      J.ValidRecord(r) && r.errorCode.None? && ContextOf(r).None? && r.outputs.Some? && !InSequence(r.outputs.value)
  {
    var o := J.ProviderOutput(1, Image, 0);
    var r := J.Record(0, Some(J.TaskInfo(None, None, 0, Image, 0, 0)), J.Succeeded, 1, None, None, J.NoReservation, None, None,
                      Some(0), 0, None, Some(StatusCompleted), None, None, None, None, Some([o]), false);
    assert J.DistinctIndexes([o]);
    assert J.ValidRecord(r);
    assert r.outputs.value[0].index != 0;
  }

  lemma {:induction false} ArtifactsAreValid(outputs: seq<J.ProviderOutput>)
    requires InSequence(outputs) && |outputs| <= 4
    ensures Unique(Artifacts(outputs), OutputIndex)
    ensures forall o :: o in Artifacts(outputs) ==> FreshOutput(o) && 0 <= o.index < |outputs| && o.errorCode.None?
  {
    if outputs != [] {
      var front := outputs[..|outputs| - 1];
      ArtifactsAreValid(front);
      AppendUnique(Artifacts(front), OutputIndex, ArtifactOf(outputs[|outputs| - 1]));
      assert Artifacts(outputs) == Artifacts(front) + [ArtifactOf(outputs[|outputs| - 1])];
    }
  }

  lemma ProviderOutputsAreValid(r: J.Record)
    requires Projectable(r)
    ensures ValidTaskOutputs(ProviderOutputs(r))
    ensures forall o :: o in ProviderOutputs(r) ==> FreshOutput(o)
  {
    if r.outputs.Some? { ArtifactsAreValid(r.outputs.value); }
  }

  lemma JournalStateIsWellFormed(r: J.Record)
    requires r.errorCode.Some? ==> SafeErrorCode(r.errorCode.value)
    ensures
      var s := FromJournal(r);
      && WellFormed(s) && s.outputs == []
      && (s.lastSyncError.Some? ==> SafeErrorCode(s.lastSyncError.value))
  {
  }

  /** Merging never takes the lifecycle back and never changes a decided outcome. */
  lemma MergeIsMonotone(t: StoredTask, incoming: TaskState)
    requires (t.lifecycle == Terminal <==> t.outcome.Some?) && WellFormed(incoming)
    ensures
      var s := Merge(Some(t), incoming);
      && WellFormed(s)
      && Rank(t.lifecycle) <= Rank(s.lifecycle)
      && (t.lifecycle == Terminal ==> s.outcome == t.outcome)
      && (s.sync == SyncConflict <==>
            || t.sync == SyncConflict
            || incoming.sync == SyncConflict
            || (t.lifecycle == Terminal && incoming.lifecycle == Terminal && incoming.outcome != t.outcome))
  {
  }

  predicate AgreesOnProduct(r: J.Record, t: StoredTask) {
    && (OperationOf(r).Some? ==> OperationOf(r).value == t.clientOperationId)
    && (ContextOf(r).Some? ==> ContextOf(r).value == t.context)
  }

  /** A projected task is well shaped, whatever it replaces. */
  lemma ProjectedIsShaped(key: Id, r: J.Record, current: Option<StoredTask>, version: int)
    requires Projectable(r) && 1 <= version <= MAX_SAFE_INTEGER
    requires current.Some? ==> ValidStoredTask(current.value) && ResultsMatchOutputs(current.value)
    ensures
      var next := ProjectedTask(key, r, current).(version := version);
      ValidStoredTask(next) && ResultsMatchOutputs(next)
  {
    hide FromJournal, ProviderOutputs;
    ProviderOutputsAreValid(r);
    JournalStateIsWellFormed(r);
    if current.Some? { MergeIsMonotone(current.value, FromJournal(r)); }
  }

  /** A projection of a strictly newer journal version passes the store's own guard exactly when
      record and task agree on the operation id and the context. */
  lemma ProjectionExactly(key: Id, r: J.Record, t: StoredTask)
    requires Projectable(r) && r.state != J.Deleted && r.version > t.journalVersion
    requires ResultsMatchOutputs(t) && SameIdentity(key, r, t) && !Rebinds(r, t)
    ensures Project(key, r, Some(t)).Ok?
    ensures ProjectionAllowed(t, Project(key, r, Some(t)).value) <==> AgreesOnProduct(r, t)
  {
    ProviderOutputsAreValid(r);
    JournalStateIsWellFormed(r);
  }

  lemma DeletionIsAllowed(key: Id, r: J.Record, t: StoredTask, version: int)
    requires Projectable(r) && r.state == J.Deleted && r.version > t.journalVersion
    requires ValidStoredTask(t) && ResultsMatchOutputs(t) && 1 <= version <= MAX_SAFE_INTEGER
    ensures
      var next := Project(key, r, Some(t)).value.(version := version);
      ProjectionAllowed(t, next) && ValidStoredTask(next) && ResultsMatchOutputs(next)
  {
  }

  lemma DeletedIsProjectable(r: J.Record)
    requires Projectable(r) && r.state == J.Deleted
    ensures Projectable(r.(state := DeletedProviderState(r)))
  {
  }

  /** Whatever newer version of the record the projector meets, the store accepts the result. */
  lemma ProjectionIsAccepted(key: Id, r: J.Record, current: Option<StoredTask>, version: int)
    requires Projectable(r) && 1 <= version <= MAX_SAFE_INTEGER
    requires current.Some? ==>
      && ValidStoredTask(current.value) && ResultsMatchOutputs(current.value)
      && SameIdentity(key, r, current.value) && !Rebinds(r, current.value) && AgreesOnProduct(r, current.value)
      && r.version > current.value.journalVersion
    ensures
      var p := Project(key, r, current);
      && p.Ok?
      && var next := p.value.(version := version);
      && ValidStoredTask(next)
      && ResultsMatchOutputs(next)
      && (current.Some? ==> ProjectionAllowed(current.value, next))
  {
    if r.state == J.Deleted {
      if current.Some? {
        DeletionIsAllowed(key, r, current.value, version);
      } else {
        DeletedIsProjectable(r);
        ProjectedIsShaped(key, r.(state := DeletedProviderState(r)), None, version);
      }
    } else {
      ProjectedIsShaped(key, r, current, version);
      if current.Some? { ProjectionExactly(key, r, current.value); }
    }
  }

  /** What projecting over a stored task does to its lifecycle. */
  lemma ProjectionIsMonotone(key: Id, r: J.Record, t: StoredTask)
    requires Projectable(r) && Project(key, r, Some(t)).Ok? && (t.lifecycle == Terminal <==> t.outcome.Some?)
    ensures
      var next := Project(key, r, Some(t)).value;
      && Rank(t.lifecycle) <= Rank(next.lifecycle)
      && (t.lifecycle == Terminal ==> next.outcome == t.outcome)
      && (next.lifecycle == Terminal <==> next.outcome.Some?)
      && (t.sync == SyncConflict ==> next.sync == SyncConflict)
  {
    JournalStateIsWellFormed(r);
    MergeIsMonotone(t, FromJournal(r));
  }

  lemma MutationIsMonotone(t: StoredTask, m: ProductMutation)
    requires ParsableMutation(m) && Mutated(t, m).Ok? && ResultsMatchOutputs(t)
    ensures
      var next := Mutated(t, m).value;
      next.lifecycle == t.lifecycle && next.outcome == t.outcome && ResultsMatchOutputs(next)
  {
  }

  lemma ProjectionIsHonest(key: Id, r: J.Record, current: Option<StoredTask>)
    requires Projectable(r) && Project(key, r, current).Ok?
    requires current.Some? ==> ResultsMatchOutputs(current.value)
    ensures ResultsMatchOutputs(Project(key, r, current).value)
  {
    if r.state == J.Deleted && current.None? {
      JournalStateIsWellFormed(r.(state := DeletedProviderState(r)));
    } else {
      JournalStateIsWellFormed(r);
    }
  }

  lemma ProjectedNames(key: Id, r: J.Record, current: Option<StoredTask>)
    requires Project(key, r, current).Ok? && (current.Some? ==> current.value.taskId == key)
    ensures Project(key, r, current).value.taskId == key && Project(key, r, current).value.journalVersion == r.version
  {
  }

  /** The two readings of a provider's answer agree: recording it in the journal and reading the
      record back gives the lifecycle and outcome that the reducer gives an accepted task. */
  lemma ObservationReadsAlike(r: J.Record, p: R.Report, when: R.Agenda, now: int, o: Observation)
    requires R.Eligible(r) && r.state != J.Succeeded && !R.Stale(r, p)
    requires ValidObservation(o) && o.status == p.status
    ensures
      var read := FromJournal(R.ObservedRecord(r, p, when, now));
      var reduced := ApplyObservation(Base(ProviderAccepted, None), o);
      reduced.Ok? && read.lifecycle == reduced.value.lifecycle && read.outcome == reduced.value.outcome
  {
  }
}
