/** The product store: tasks, an outbox of effects, and an inbox of their deliveries.

    Each operation is one critical section: it reads the disk image, changes it, compacts it to
    its capacity, and replaces the file. */
module TaskStore {
  import opened Prelude
  import opened Lists
  import opened TaskContract

  datatype Visibility = Unstated | Visible | HiddenTask | DeletedTask

  datatype StoredTask = StoredTask(
    taskId: Id,
    visibility: Visibility,
    clientOperationId: Id,
    lifecycle: Lifecycle,
    outcome: Option<Outcome>,
    sync: SyncState,
    result: ResultState,
    requestHash: Id,
    version: int,
    outputs: seq<TaskOutput>,
    context: Context,
    account: Option<Id>,
    officialStatus: Option<Status>,
    lastSyncError: Option<ErrorCode>,
    mode: Option<Media>,
    operation: Option<Id>,
    model: Option<Id>,
    createdAt: Option<int>,
    updatedAt: int,
    recordId: Id,
    journalVersion: int)

  /** An effect key is text; what the store looks at is whether it starts with one of the four
      product prefixes (`materialize:`, `attach-node:`, `attach-message:`, `agent-resume:`). */
  datatype KeySpace = Materialize | AttachNode | AttachMessage | AgentResume | OtherSpace

  datatype EffectKey = EffectKey(space: KeySpace, name: Id)

  datatype EffectKind = TaskProjected | TaskMutated | ProductEffect

  datatype Effect = Effect(
    key: EffectKey, kind: EffectKind, taskId: Id, journalVersion: Option<int>, taskVersion: int, createdAt: int)

  datatype EffectResult = EffectResult(assetId: Option<Id>)

  datatype Delivery =
    | Leased(token: Id, expiresAt: int)
    | Completed(at: int, result: Option<EffectResult>)
    | Released(at: int)

  datatype Item = Item(consumer: Id, taskId: Id, key: EffectKey, fence: int, delivery: Delivery)

  datatype Slot = Slot(consumer: Id, key: EffectKey)

  datatype Disk = Disk(revision: int, tasks: seq<StoredTask>, outbox: seq<Effect>, inbox: seq<Item>)

  const EMPTY_DISK := Disk(0, [], [], [])

  datatype Capacity = Capacity(maxTasks: nat, maxEffects: nat)

  datatype StoreError = StoreInvalid | VersionConflict | TransitionRefused

  datatype StoreReply =
    | Stored(task: StoredTask)
    | LeaseGranted(token: Id, expiresAt: int, fence: int)
    | BusyUntil(retryAt: int)
    | AlreadyCompleted(done: EffectResult)
    | Undefined
    | LeaseRenewed(until: int)
    | Finished

  datatype StoreOutcome = StoreOutcome(disk: Disk, reply: Result<StoreReply, StoreError>)

  predicate IsProductKey(key: EffectKey) {
    key.space != OtherSpace
  }

  function TaskKey(t: StoredTask): Id { t.taskId }

  function EffectKeyOf(e: Effect): EffectKey { e.key }

  function SlotOf(i: Item): Slot { Slot(i.consumer, i.key) }

  function OutputIndex(o: TaskOutput): int { o.index }

  function FindTask(tasks: seq<StoredTask>, taskId: Id): (r: Option<StoredTask>)
    ensures r.Some? ==> r.value in tasks && r.value.taskId == taskId
    ensures r.None? ==> forall t :: t in tasks ==> t.taskId != taskId
  {
    First(tasks, (t: StoredTask) => t.taskId == taskId)
  }

  function FindEffect(outbox: seq<Effect>, key: EffectKey): (r: Option<Effect>)
    ensures r.Some? ==> r.value in outbox && r.value.key == key
    ensures r.None? ==> forall e :: e in outbox ==> e.key != key
  {
    First(outbox, (e: Effect) => e.key == key)
  }

  function FindItem(inbox: seq<Item>, slot: Slot): (r: Option<Item>)
    ensures r.Some? ==> r.value in inbox && SlotOf(r.value) == slot
    ensures r.None? ==> forall i :: i in inbox ==> SlotOf(i) != slot
  {
    First(inbox, (i: Item) => SlotOf(i) == slot)
  }

  lemma {:induction false} FindsTask(tasks: seq<StoredTask>, t: StoredTask)
    requires Unique(tasks, TaskKey) && t in tasks
    ensures FindTask(tasks, t.taskId) == Some(t)
  {
    UniqueMember(tasks, TaskKey, FindTask(tasks, t.taskId).value, t);
  }

  lemma {:induction false} FindsEffect(outbox: seq<Effect>, e: Effect)
    requires Unique(outbox, EffectKeyOf) && e in outbox
    ensures FindEffect(outbox, e.key) == Some(e)
  {
    UniqueMember(outbox, EffectKeyOf, FindEffect(outbox, e.key).value, e);
  }

  lemma {:induction false} FindsItem(inbox: seq<Item>, i: Item)
    requires Unique(inbox, SlotOf) && i in inbox
    ensures FindItem(inbox, SlotOf(i)) == Some(i)
  {
    UniqueMember(inbox, SlotOf, FindItem(inbox, SlotOf(i)).value, i);
  }

  // ---- Shapes ------------------------------------------------------------------------------------

  predicate ValidContext(c: Context) {
    c.Scoped? ==>
      && (BatchIndex in c.fields ==> c.fields[BatchIndex] <= MAX_SAFE_INTEGER)
      && (BatchCount in c.fields ==> 1 <= c.fields[BatchCount] <= MAX_SAFE_INTEGER)
  }

  predicate ValidOutput(o: TaskOutput) {
    0 <= o.index <= MAX_SAFE_INTEGER && (o.errorCode.Some? ==> SafeErrorCode(o.errorCode.value))
  }

  predicate ValidTaskOutputs(outputs: seq<TaskOutput>) {
    |outputs| <= 32 && (forall o :: o in outputs ==> ValidOutput(o)) && Unique(outputs, OutputIndex)
  }

  predicate ValidStoredTask(t: StoredTask) {
    && 1 <= t.version <= MAX_SAFE_INTEGER
    && 1 <= t.journalVersion <= MAX_SAFE_INTEGER
    && (t.lifecycle == Terminal <==> t.outcome.Some?)
    && ValidContext(t.context)
    && ValidTaskOutputs(t.outputs)
    && (t.lastSyncError.Some? ==> SafeErrorCode(t.lastSyncError.value))
    && t.mode != Some(Audio)
  }

  predicate SafeVersion(v: Option<int>) {
    v.Some? ==> 1 <= v.value <= MAX_SAFE_INTEGER
  }

  predicate ValidEffect(e: Effect) {
    && SafeVersion(e.journalVersion)
    && (e.kind == TaskProjected ==> e.journalVersion.Some?)
    && 1 <= e.taskVersion <= MAX_SAFE_INTEGER
  }

  predicate ValidItem(i: Item) {
    1 <= i.fence <= MAX_SAFE_INTEGER
  }

  predicate ValidLease(leaseMs: int) {
    100 <= leaseMs <= 3600000
  }

  predicate HasTask(tasks: seq<StoredTask>, taskId: Id) {
    exists t :: t in tasks && t.taskId == taskId
  }

  predicate HasEffect(outbox: seq<Effect>, key: EffectKey) {
    exists e :: e in outbox && e.key == key
  }

  predicate TasksOk(tasks: seq<StoredTask>) {
    Unique(tasks, TaskKey) && forall t :: t in tasks ==> ValidStoredTask(t)
  }

  predicate OutboxOk(tasks: seq<StoredTask>, outbox: seq<Effect>) {
    Unique(outbox, EffectKeyOf) && forall e :: e in outbox ==> ValidEffect(e) && HasTask(tasks, e.taskId)
  }

  predicate InboxOk(tasks: seq<StoredTask>, outbox: seq<Effect>, inbox: seq<Item>) {
    && Unique(inbox, SlotOf)
    && (forall i :: i in inbox ==> ValidItem(i) && HasTask(tasks, i.taskId))
    && (forall i, e :: i in inbox && e in outbox && i.key == e.key ==> i.taskId == e.taskId)
    && (forall i :: i in inbox && !HasEffect(outbox, i.key) ==> IsProductKey(i.key))
  }

  predicate Fits(d: Disk, cap: Capacity) {
    |d.tasks| <= cap.maxTasks && |d.outbox| <= cap.maxEffects && |d.inbox| <= cap.maxEffects
  }

  /** What every read checks before it trusts the file. */
  predicate Readable(d: Disk, cap: Capacity) {
    && 0 <= d.revision <= MAX_SAFE_INTEGER
    && Fits(d, cap)
    && TasksOk(d.tasks)
    && OutboxOk(d.tasks, d.outbox)
    && InboxOk(d.tasks, d.outbox, d.inbox)
  }

  // ---- Compaction ----------------------------------------------------------------------------------

  predicate IsDeleted(tasks: seq<StoredTask>, taskId: Id) {
    exists t :: t in tasks && t.taskId == taskId && t.visibility == DeletedTask
  }

  predicate AwaitsDelivery(inbox: seq<Item>, taskId: Id) {
    exists i :: i in inbox && i.taskId == taskId && i.delivery.Leased?
  }

  function DropTask(d: Disk, taskId: Id): (r: Disk)
    ensures forall t :: t in r.tasks <==> t in d.tasks && t.taskId != taskId
    ensures forall e :: e in r.outbox <==> e in d.outbox && e.taskId != taskId
    ensures forall i :: i in r.inbox <==> i in d.inbox && i.taskId != taskId
  {
    Disk(d.revision,
         Filter(d.tasks, (t: StoredTask) => t.taskId != taskId),
         Filter(d.outbox, (e: Effect) => e.taskId != taskId),
         Filter(d.inbox, (i: Item) => i.taskId != taskId))
  }

  function WithoutEffect(outbox: seq<Effect>, key: EffectKey): (r: seq<Effect>)
    ensures forall e :: e in r <==> e in outbox && e.key != key
    ensures |r| <= |outbox|
    ensures HasEffect(outbox, key) ==> |r| < |outbox|
  {
    FilterShrinks(outbox, (e: Effect) => e.key != key);
    Filter(outbox, (e: Effect) => e.key != key)
  }

  function WithoutDeliveries(inbox: seq<Item>, key: EffectKey): (r: seq<Item>)
    ensures forall i :: i in r <==> i in inbox && i.key != key
    ensures |r| <= |inbox|
  {
    Filter(inbox, (i: Item) => i.key != key)
  }

  function WithoutItem(inbox: seq<Item>, item: Item): (r: seq<Item>)
    ensures forall i :: i in r <==> i in inbox && i != item
    ensures |r| <= |inbox|
    ensures item in inbox ==> |r| < |inbox|
  {
    FilterShrinks(inbox, (i: Item) => i != item);
    Filter(inbox, (i: Item) => i != item)
  }

  /** Every delivery of the effect was completed, and there is one. */
  predicate AllDelivered(inbox: seq<Item>, key: EffectKey) {
    && (exists i :: i in inbox && i.key == key)
    && (forall i :: i in inbox && i.key == key ==> i.delivery.Completed?)
  }

  /** The next effect to drop: a product effect if there is one, since its inbox item remembers
      the result; otherwise one that every consumer has completed. */
  function OutboxCandidate(outbox: seq<Effect>, inbox: seq<Item>): (r: Option<Effect>)
    ensures r.Some? ==> r.value in outbox && (r.value.kind == ProductEffect || AllDelivered(inbox, r.value.key))
    ensures r.None? ==> forall e :: e in outbox ==> e.kind != ProductEffect && !AllDelivered(inbox, e.key)
  {
    var product := First(outbox, (e: Effect) => e.kind == ProductEffect);
    if product.Some? then product else First(outbox, (e: Effect) => AllDelivered(inbox, e.key))
  }

  function DropEffect(d: Disk, e: Effect): Disk {
    Disk(d.revision, d.tasks, WithoutEffect(d.outbox, e.key),
         if e.kind == ProductEffect then d.inbox else WithoutDeliveries(d.inbox, e.key))
  }

  function CompactOutbox(d: Disk, cap: Capacity): Disk
    decreases |d.outbox|
  {
    if |d.outbox| <= cap.maxEffects then
      d
    else
      var e := OutboxCandidate(d.outbox, d.inbox);
      if e.None? then d else CompactOutbox(DropEffect(d, e.value), cap)
  }

  /** Whether a completed delivery must be kept as the memory of a product result. */
  predicate IsProductDelivery(outbox: seq<Effect>, i: Item) {
    var e := FindEffect(outbox, i.key);
    if e.Some? then e.value.kind == ProductEffect else IsProductKey(i.key)
  }

  predicate Forgettable(tasks: seq<StoredTask>, outbox: seq<Effect>, i: Item) {
    && i.delivery.Completed?
    && (IsProductDelivery(outbox, i) ==>
          FindTask(tasks, i.taskId).Some? && FindTask(tasks, i.taskId).value.visibility == DeletedTask)
  }

  function InboxCandidate(d: Disk): (r: Option<Item>)
    ensures r.Some? ==> r.value in d.inbox && (r.value.delivery.Released? || Forgettable(d.tasks, d.outbox, r.value))
  {
    var released := First(d.inbox, (i: Item) => i.delivery.Released?);
    if released.Some? then released else First(d.inbox, (i: Item) => Forgettable(d.tasks, d.outbox, i))
  }

  function DropItem(d: Disk, i: Item): Disk {
    Disk(d.revision, d.tasks, WithoutEffect(d.outbox, i.key), WithoutItem(d.inbox, i))
  }

  function CompactInbox(d: Disk, cap: Capacity): Disk
    decreases |d.inbox|
  {
    if |d.inbox| <= cap.maxEffects then
      d
    else
      var i := InboxCandidate(d);
      if i.None? then d else CompactInbox(DropItem(d, i.value), cap)
  }

  predicate ChangedBefore(t: StoredTask, u: StoredTask) {
    t.updatedAt < u.updatedAt
  }

  function OldestDeleted(tasks: seq<StoredTask>): (r: seq<StoredTask>)
    ensures forall t :: t in r <==> t in tasks && t.visibility == DeletedTask
  {
    Sort(Filter(tasks, (t: StoredTask) => t.visibility == DeletedTask), ChangedBefore)
  }

  function CompactTasks(d: Disk, doomed: seq<StoredTask>, cap: Capacity): Disk
    decreases |doomed|
  {
    if doomed == [] || |d.tasks| <= cap.maxTasks then
      d
    else
      CompactTasks(if AwaitsDelivery(d.inbox, doomed[0].taskId) then d else DropTask(d, doomed[0].taskId), doomed[1..], cap)
  }

  function Compact(d: Disk, cap: Capacity): Disk {
    CompactOutbox(CompactInbox(CompactOutbox(CompactTasks(d, OldestDeleted(d.tasks), cap), cap), cap), cap)
  }

  // ---- Writing -------------------------------------------------------------------------------------

  function SpaceRank(s: KeySpace): nat {
    match s
    case AgentResume => 0
    case AttachMessage => 1
    case AttachNode => 2
    case Materialize => 3
    case OtherSpace => 4
  }

  predicate ItemBefore(i: Item, j: Item) {
    || i.consumer < j.consumer
    || (i.consumer == j.consumer && SpaceRank(i.key.space) < SpaceRank(j.key.space))
    || (i.consumer == j.consumer && i.key.space == j.key.space && i.key.name < j.key.name)
  }

  predicate TaskBefore(t: StoredTask, u: StoredTask) {
    t.taskId < u.taskId
  }

  function SortTasks(tasks: seq<StoredTask>): (r: seq<StoredTask>)
    ensures |r| == |tasks|
    ensures forall t :: t in r <==> t in tasks
  {
    Sort(tasks, TaskBefore)
  }

  function SortInbox(inbox: seq<Item>): (r: seq<Item>)
    ensures |r| == |inbox|
    ensures forall i :: i in r <==> i in inbox
  {
    Sort(inbox, ItemBefore)
  }

  /** Compact, count the revision, sort; a store that stays over its capacity is not written. */
  function Written(changed: Disk, cap: Capacity): Option<Disk> {
    var c := Compact(changed, cap);
    if Fits(c, cap)
    then Some(Disk(c.revision + 1, SortTasks(c.tasks), c.outbox, SortInbox(c.inbox)))
    else None
  }

  function Save(before: Disk, changed: Disk, cap: Capacity, reply: StoreReply): StoreOutcome {
    var w := Written(changed, cap);
    if w.Some? then StoreOutcome(w.value, Ok(reply)) else StoreOutcome(before, Err(StoreInvalid))
  }

  function Refuse(d: Disk, error: StoreError): StoreOutcome {
    StoreOutcome(d, Err(error))
  }

  function Answer(d: Disk, reply: StoreReply): StoreOutcome {
    StoreOutcome(d, Ok(reply))
  }

  // ---- Tasks -----------------------------------------------------------------------------------------

  predicate Resurrected(from: Visibility, to: Visibility) {
    (from == DeletedTask && to != DeletedTask) || (from == HiddenTask && (to == Unstated || to == Visible))
  }

  predicate FreshOutput(o: TaskOutput) {
    o.providerRef.Some? && o.assetId.None? && o.errorCode.None?
  }

  predicate OutputsMayBecome(t: StoredTask, next: StoredTask) {
    || next.outputs == t.outputs
    || (&& t.outputs == []
        && (t.result == NotAvailable || t.result == PendingMaterialization)
        && next.result == PendingMaterialization
        && next.outputs != []
        && forall o :: o in next.outputs ==> FreshOutput(o))
  }

  /** What a projection may do to the task it finds. */
  predicate ProjectionAllowed(t: StoredTask, next: StoredTask) {
    && next.clientOperationId == t.clientOperationId
    && next.requestHash == t.requestHash
    && next.recordId == t.recordId
    && next.journalVersion > t.journalVersion
    && !Resurrected(t.visibility, next.visibility)
    && (t.account.Some? ==> next.account == t.account)
    && next.context == t.context
    && OutputsMayBecome(t, next)
    && (t.result == NotAvailable || next.result == t.result)
  }

  /** `RESULT_TRANSITIONS`. */
  predicate ResultMayBecome(from: ResultState, to: ResultState) {
    match from
    case PendingMaterialization => to == Materializing || to == Ready || to == FailedRetryable || to == FailedPermanent
    case Materializing => to == Ready || to == FailedRetryable || to == FailedPermanent
    case FailedRetryable => to == Materializing || to == FailedPermanent
    case _ => false
  }

  datatype ProductMutation =
    | EventMutation(event: Event, at: int)
    | Materialization(result: ResultState, outputs: seq<TaskOutput>, at: int)

  /** The mutations the product may ask for. */
  predicate ParsableMutation(m: ProductMutation) {
    m.EventMutation? ==>
      || m.event.SyncFailed?
      || m.event.SyncRecovered?
      || (m.event.BindContext? && m.event.account.None?)
  }

  function StateOf(t: StoredTask): TaskState {
    TaskState(t.lifecycle, t.outcome, t.sync, t.result, t.outputs, t.account, t.context, None, t.lastSyncError)
  }

  function WithState(t: StoredTask, s: TaskState, at: int): StoredTask {
    t.(lifecycle := s.lifecycle, outcome := s.outcome, sync := s.sync, result := s.result, outputs := s.outputs,
       context := s.context, lastSyncError := s.lastSyncError, updatedAt := at)
  }

  function ApplyProductMutation(t: StoredTask, m: ProductMutation): Result<StoredTask, StoreError> {
    if m.at < t.updatedAt then
      Err(StoreInvalid)
    else if m.Materialization? then
      if t.lifecycle != Terminal || t.outcome != Some(Success) || !ResultMayBecome(t.result, m.result)
      then Err(StoreInvalid)
      else Ok(t.(result := m.result, outputs := m.outputs, updatedAt := m.at))
    else if m.event.BindContext? && t.context.LegacyUnscoped? then
      Err(StoreInvalid)
    else
      var s := Reduce(StateOf(t), m.event);
      if s.Err? then Err(TransitionRefused) else Ok(WithState(t, s.value, m.at))
  }

  /** The task a mutation would write: the same task with the next version. */
  function Mutated(t: StoredTask, m: ProductMutation): Result<StoredTask, StoreError> {
    var next := ApplyProductMutation(t, m);
    if next.Err? then next else Ok(next.value.(version := t.version + 1))
  }

  function PutInto(tasks: seq<StoredTask>, task: StoredTask): seq<StoredTask> {
    if HasTask(tasks, task.taskId) then Put(tasks, TaskKey, task) else tasks + [task]
  }

  function PutTask(d: Disk, task: StoredTask, e: Effect): Disk {
    Disk(d.revision, PutInto(d.tasks, task), d.outbox + [e], d.inbox)
  }

  /** The common end of both task writes. */
  function SaveTask(d: Disk, cap: Capacity, task: StoredTask, e: Effect): StoreOutcome {
    if !ValidStoredTask(task) || HasEffect(d.outbox, e.key) then Refuse(d, StoreInvalid)
    else Save(d, PutTask(d, task, e), cap, Stored(task))
  }

  datatype EffectInput = EffectInput(key: EffectKey, taskId: Id, journalVersion: Option<int>)

  /** The task a projection would write. */
  function SwappedTask(current: Option<StoredTask>, taskId: Id, input: StoredTask): StoredTask {
    input.(taskId := taskId, version := if current.Some? then current.value.version + 1 else 1)
  }

  function ProjectedEffect(effect: EffectInput, version: int, now: int): Effect {
    Effect(effect.key, TaskProjected, effect.taskId, effect.journalVersion, version, now)
  }

  predicate MayProject(current: Option<StoredTask>, task: StoredTask, e: Effect) {
    && (current.Some? ==> ProjectionAllowed(current.value, task))
    && e.taskId == task.taskId && ValidEffect(e) && e.journalVersion == Some(task.journalVersion)
  }

  /** `compareAndSwapTask`: the projection's write. */
  function CompareAndSwap(
    d: Disk, cap: Capacity, taskId: Id, expected: int, input: StoredTask, effect: EffectInput, now: int): StoreOutcome
  {
    var current := FindTask(d.tasks, taskId);
    var task := SwappedTask(current, taskId, input);
    var e := ProjectedEffect(effect, task.version, now);
    if !(0 <= expected <= MAX_SAFE_INTEGER) then Refuse(d, StoreInvalid)
    else if task.version != expected + 1 then Refuse(d, VersionConflict)
    else if !MayProject(current, task, e) then Refuse(d, StoreInvalid)
    else SaveTask(d, cap, task, e)
  }

  /** `mutateTask`: the product's write. */
  function MutateTask(
    d: Disk, cap: Capacity, taskId: Id, expected: int, m: ProductMutation, key: EffectKey, now: int): StoreOutcome
  {
    var current := FindTask(d.tasks, taskId);
    if !(0 <= expected <= MAX_SAFE_INTEGER) then Refuse(d, StoreInvalid)
    else if current.None? || current.value.version != expected then Refuse(d, VersionConflict)
    else if !ParsableMutation(m) then Refuse(d, StoreInvalid)
    else
      var task := Mutated(current.value, m);
      if task.Err? then Refuse(d, task.error)
      else SaveTask(d, cap, task.value, Effect(key, TaskMutated, taskId, None, task.value.version, now))
  }

  // ---- Effects ---------------------------------------------------------------------------------------

  function NextFence(item: Option<Item>): int {
    if item.Some? then item.value.fence + 1 else 1
  }

  function PutItem(inbox: seq<Item>, item: Item, known: bool): seq<Item> {
    if known then Put(inbox, SlotOf, item) else inbox + [item]
  }

  predicate StillLeased(item: Option<Item>, now: int) {
    item.Some? && item.value.delivery.Leased? && item.value.delivery.expiresAt > now
  }

  function NewClaim(consumer: Id, taskId: Id, key: EffectKey, item: Option<Item>, token: Id, expiresAt: int): Item {
    Item(consumer, taskId, key, NextFence(item), Leased(token, expiresAt))
  }

  function SaveClaim(d: Disk, cap: Capacity, outbox: seq<Effect>, claimed: Item, known: bool): StoreOutcome
    requires claimed.delivery.Leased?
  {
    Save(d, Disk(d.revision, d.tasks, outbox, PutItem(d.inbox, claimed, known)), cap,
         LeaseGranted(claimed.delivery.token, claimed.delivery.expiresAt, claimed.fence))
  }

  function WithProductEffect(outbox: seq<Effect>, key: EffectKey, taskId: Id, version: int, now: int): seq<Effect> {
    if FindEffect(outbox, key).Some? then outbox
    else outbox + [Effect(key, ProductEffect, taskId, None, version, now)]
  }

  /** The answer to a claim that changes nothing. */
  function DeliveryClaimAnswer(effect: Option<Effect>, item: Option<Item>, now: int): Option<Result<StoreReply, StoreError>> {
    if effect.None? then Some(Ok(Undefined))
    else if item.Some? && item.value.taskId != effect.value.taskId then Some(Err(StoreInvalid))
    else if item.Some? && item.value.delivery.Completed? then Some(Ok(Undefined))
    else if StillLeased(item, now) then Some(Ok(Undefined))
    else None
  }

  /** `claimOutboxEffect`. */
  function ClaimOutbox(
    d: Disk, cap: Capacity, consumer: Id, key: EffectKey, token: Id, now: int, leaseMs: int): StoreOutcome
  {
    var effect, item := FindEffect(d.outbox, key), FindItem(d.inbox, Slot(consumer, key));
    var answer := DeliveryClaimAnswer(effect, item, now);
    if !ValidLease(leaseMs) then Refuse(d, StoreInvalid)
    else if answer.Some? then StoreOutcome(d, answer.value)
    else SaveClaim(d, cap, d.outbox, NewClaim(consumer, effect.value.taskId, key, item, token, now + leaseMs), item.Some?)
  }

  function ProductClaimAnswer(task: Option<StoredTask>, effect: Option<Effect>, item: Option<Item>, taskId: Id, now: int)
    : Option<Result<StoreReply, StoreError>>
  {
    if task.None? || task.value.visibility == DeletedTask then Some(Err(StoreInvalid))
    else if item.Some? && item.value.taskId != taskId then Some(Err(StoreInvalid))
    else if item.Some? && item.value.delivery.Completed? then
      var result := item.value.delivery.result;
      Some(Ok(AlreadyCompleted(if result.Some? then result.value else EffectResult(None))))
    else if StillLeased(item, now) then Some(Ok(BusyUntil(item.value.delivery.expiresAt)))
    else if effect.Some? && (effect.value.kind != ProductEffect || effect.value.taskId != taskId) then Some(Err(StoreInvalid))
    else None
  }

  /** `claimProductEffect`: an effect nobody has claimed yet comes into being with its first claim. */
  function ClaimProduct(
    d: Disk, cap: Capacity, consumer: Id, taskId: Id, key: EffectKey, token: Id, now: int, leaseMs: int): StoreOutcome
  {
    var task, effect, item := FindTask(d.tasks, taskId), FindEffect(d.outbox, key), FindItem(d.inbox, Slot(consumer, key));
    var answer := ProductClaimAnswer(task, effect, item, taskId, now);
    if !ValidLease(leaseMs) then Refuse(d, StoreInvalid)
    else if answer.Some? then StoreOutcome(d, answer.value)
    else SaveClaim(d, cap, WithProductEffect(d.outbox, key, taskId, task.value.version, now),
                   NewClaim(consumer, taskId, key, item, token, now + leaseMs), item.Some?)
  }

  /** The caller presents the lease that the item carries, in time. */
  predicate Presents(item: Option<Item>, taskId: Id, token: Id, fence: int, now: int) {
    && item.Some? && item.value.taskId == taskId && item.value.fence == fence
    && item.value.delivery.Leased? && item.value.delivery.token == token && item.value.delivery.expiresAt > now
  }

  function Deliver(d: Disk, cap: Capacity, item: Item, delivery: Delivery, reply: StoreReply): StoreOutcome {
    Save(d, Disk(d.revision, d.tasks, d.outbox, Put(d.inbox, SlotOf, item.(delivery := delivery))), cap, reply)
  }

  /** `renewProductEffect`. */
  function RenewEffect(
    d: Disk, cap: Capacity, consumer: Id, taskId: Id, key: EffectKey, token: Id, fence: int, now: int, leaseMs: int): StoreOutcome
  {
    var item := FindItem(d.inbox, Slot(consumer, key));
    if !(1 <= fence <= MAX_SAFE_INTEGER) || !ValidLease(leaseMs) then Refuse(d, StoreInvalid)
    else if !Presents(item, taskId, token, fence, now) then Answer(d, Undefined)
    else Deliver(d, cap, item.value, Leased(token, now + leaseMs), LeaseRenewed(now + leaseMs))
  }

  /** `completeProductEffect` and `releaseProductEffect`. */
  function FinishEffect(
    d: Disk, cap: Capacity, consumer: Id, taskId: Id, key: EffectKey, token: Id, fence: int, end: Option<EffectResult>, now: int)
    : StoreOutcome
  {
    var item := FindItem(d.inbox, Slot(consumer, key));
    if !(1 <= fence <= MAX_SAFE_INTEGER) then Refuse(d, StoreInvalid)
    else if !Presents(item, taskId, token, fence, now) then Answer(d, Undefined)
    else Deliver(d, cap, item.value, if end.Some? then Completed(now, end) else Released(now), Finished)
  }

  /** `completeOutboxEffect`: the token alone identifies the lease. */
  function CompleteOutbox(d: Disk, cap: Capacity, consumer: Id, key: EffectKey, token: Id, now: int): StoreOutcome {
    var item := FindItem(d.inbox, Slot(consumer, key));
    if item.None? || !Presents(item, item.value.taskId, token, item.value.fence, now) then Answer(d, Undefined)
    else Deliver(d, cap, item.value, Completed(now, None), Finished)
  }
}
