/** Why a projection must not span the dropping and remaking of its task: a run in which one does. */
module LateProjections {
  import opened Prelude
  import opened Lists
  import opened TaskContract
  import opened TaskStore
  import opened StoreSteps
  import opened StoreRuns
  import opened ProjectionRuns
  import J = JournalRecord
  import P = Projection

  // ---- Writes into a store with room for one task -----------------------------------------------------------

  predicate Holds(d: Disk, tasks: seq<StoredTask>, effects: nat) {
    d.tasks == tasks && d.inbox == [] && Named(d.outbox, effects) && 0 <= d.revision <= effects
  }

  predicate Named(outbox: seq<Effect>, effects: nat) {
    |outbox| <= effects && forall e :: e in outbox ==> 0 <= e.key.name < effects
  }

  const ONE_TASK := Capacity(1, 8)

  lemma {:induction false} Uncrowded(c: Disk)
    requires |c.outbox| <= 8 && |c.inbox| <= 8
    ensures CompactOutbox(c, ONE_TASK) == c && CompactInbox(c, ONE_TASK) == c
  {
  }

  lemma SortsOne(t: StoredTask)
    ensures SortTasks([t]) == [t] && SortInbox([]) == []
  {
    assert |SortTasks([t])| == 1 && SortTasks([t])[0] in SortTasks([t]);
  }

  lemma {:induction false} CompactsTo(m: Disk, c: Disk)
    requires c == CompactTasks(m, OldestDeleted(m.tasks), ONE_TASK) && |c.outbox| <= 8 && |c.inbox| <= 8
    ensures Compact(m, ONE_TASK) == c
  {
    Uncrowded(c);
  }

  lemma WritesOne(d: Disk, m: Disk, c: Disk, t: StoredTask, n: nat, reply: StoreReply)
    requires c == Compact(m, ONE_TASK) && n < 8
    requires c.tasks == [t] && c.inbox == [] && Named(c.outbox, n + 1) && 0 <= c.revision <= n
    ensures Holds(Save(d, m, ONE_TASK, reply).disk, [t], n + 1)
  {
    SortsOne(t);
  }

  lemma PutsOne(d: Disk, t: StoredTask, e: Effect, tasks: seq<StoredTask>, n: nat)
    requires Holds(d, tasks, n) && e.key.name == n
    requires tasks == [] || (|tasks| == 1 && tasks[0].taskId == t.taskId)
    ensures PutTask(d, t, e).tasks == [t] && Named(PutTask(d, t, e).outbox, n + 1)
  {
    if tasks != [] {
      assert tasks[..0] == [] && tasks[0] in tasks;
    }
  }

  lemma CompactsNothing(m: Disk)
    requires Fits(m, ONE_TASK)
    ensures Compact(m, ONE_TASK) == m
  {
    Uncrowded(m);
  }

  lemma SavesAlone(d: Disk, t: StoredTask, e: Effect, tasks: seq<StoredTask>, n: nat, reply: StoreReply)
    requires Holds(d, tasks, n) && n < 8 && e.key.name == n
    requires tasks == [] || (|tasks| == 1 && tasks[0].taskId == t.taskId)
    ensures Holds(Save(d, PutTask(d, t, e), ONE_TASK, reply).disk, [t], n + 1)
  {
    PutsOne(d, t, e, tasks, n);
    SavesPut(d, PutTask(d, t, e), t, n, reply);
  }

  lemma SavesPut(d: Disk, m: Disk, t: StoredTask, n: nat, reply: StoreReply)
    requires m.tasks == [t] && m.inbox == [] && Named(m.outbox, n + 1) && 0 <= m.revision <= n < 8
    ensures Holds(Save(d, m, ONE_TASK, reply).disk, [t], n + 1)
  {
    CompactsNothing(m);
    WritesOne(d, m, m, t, n, reply);
  }

  lemma DropsFirst(d: Disk, x: StoredTask, t: StoredTask)
    requires d.tasks == [x, t] && x.taskId != t.taskId
    ensures DropTask(d, x.taskId).tasks == [t]
  {
    var keep := (u: StoredTask) => u.taskId != x.taskId;
    assert d.tasks[..1] == [x] && [x][..0] == [];
    assert Filter([x], keep) == [];
    assert Filter(d.tasks, keep) == [] + [t];
  }

  lemma {:induction false} DropsOldest(m: Disk, x: StoredTask)
    requires |m.tasks| == 2 && m.inbox == [] && |OldestDeleted(m.tasks)| > 0 && OldestDeleted(m.tasks)[0] == x
    requires |DropTask(m, x.taskId).tasks| == 1
    ensures CompactTasks(m, OldestDeleted(m.tasks), ONE_TASK) == DropTask(m, x.taskId)
  {
  }

  lemma CompactsAway(m: Disk, x: StoredTask, t: StoredTask)
    requires m.tasks == [x, t] && m.inbox == [] && |m.outbox| <= 8 && x.taskId != t.taskId
    requires x.visibility == DeletedTask && (t.visibility == DeletedTask ==> x.updatedAt < t.updatedAt)
    ensures Compact(m, ONE_TASK) == DropTask(m, x.taskId) && DropTask(m, x.taskId).tasks == [t]
  {
    OldestFirst(x, t);
    DropsFirst(m, x, t);
    DropsOldest(m, x);
    CompactsTo(m, DropTask(m, x.taskId));
  }

  lemma SavesPutInstead(d: Disk, m: Disk, x: StoredTask, t: StoredTask, n: nat, reply: StoreReply)
    requires m.tasks == [x, t] && m.inbox == [] && Named(m.outbox, n + 1) && 0 <= m.revision <= n < 8
    requires x.taskId != t.taskId
    requires x.visibility == DeletedTask && (t.visibility == DeletedTask ==> x.updatedAt < t.updatedAt)
    ensures Holds(Save(d, m, ONE_TASK, reply).disk, [t], n + 1)
  {
    CompactsAway(m, x, t);
    WritesOne(d, m, DropTask(m, x.taskId), t, n, reply);
  }

  lemma SavesInstead(d: Disk, x: StoredTask, t: StoredTask, e: Effect, n: nat, reply: StoreReply)
    requires Holds(d, [x], n) && n < 8 && e.key.name == n && x.taskId != t.taskId
    requires x.visibility == DeletedTask && (t.visibility == DeletedTask ==> x.updatedAt < t.updatedAt)
    ensures Holds(Save(d, PutTask(d, t, e), ONE_TASK, reply).disk, [t], n + 1)
  {
    var m := PutTask(d, t, e);
    assert m.tasks == [x, t];
    SavesPutInstead(d, m, x, t, n, reply);
  }

  lemma OldestFirst(x: StoredTask, t: StoredTask)
    requires x.visibility == DeletedTask && (t.visibility == DeletedTask ==> x.updatedAt < t.updatedAt)
    ensures |OldestDeleted([x, t])| > 0 && OldestDeleted([x, t])[0] == x
  {
    var deleted := (u: StoredTask) => u.visibility == DeletedTask;
    assert [x, t][..1] == [x] && [x][..0] == [];
    assert Filter([x], deleted) == [x];
    assert Sort([x], ChangedBefore) == [x];
    assert Filter([x, t], deleted) == if deleted(t) then [x, t] else [x];
  }

  // ---- The records and the tasks ------------------------------------------------------------------------------

  /** One version of the journal record of a submitted job. */
  function Version(version: int, state: J.JournalState, status: Option<Status>): J.Record {
    J.Record(0, Some(J.TaskInfo(None, None, 0, Image, 0, 0)), state, version, None, None, J.NoReservation, None, None,
             Some(0), version, None, status, None, None, None, None, None, false)
  }

  function Fresh(key: Id, r: J.Record): StoredTask {
    SwappedTask(None, key, P.ProjectedTask(key, r, None))
  }

  /** The task that both slow projectors know. */
  function FirstTask(): StoredTask {
    Fresh(1, Version(1, J.Accepted, None))
  }

  function GoneTask(): StoredTask {
    FirstTask().(visibility := DeletedTask, version := 2, journalVersion := 4, updatedAt := 4)
  }

  function OtherTask(): StoredTask {
    Fresh(2, Version(5, J.Accepted, None)).(visibility := DeletedTask)
  }

  function RemadeTask(): StoredTask {
    Fresh(1, Version(2, J.Accepted, Some(StatusProcessing)))
  }

  function LateTask(): StoredTask {
    P.ProjectedTask(1, Version(3, J.Accepted, Some(StatusPending)), Some(FirstTask())).(version := 2)
  }

  /** The five versions are versions of one record, as the journal's gate sees it. */
  lemma TheRecordProgresses()
    ensures J.Progresses(Version(1, J.Accepted, None), Version(2, J.Accepted, Some(StatusProcessing)))
    ensures J.Progresses(Version(2, J.Accepted, Some(StatusProcessing)), Version(3, J.Accepted, Some(StatusPending)))
    ensures J.Progresses(Version(3, J.Accepted, Some(StatusPending)), Version(4, J.Deleted, None))
  {
  }

  // ---- The run ----------------------------------------------------------------------------------------------------

  function Swap(taskId: Id, expected: int, task: StoredTask, n: nat): Action {
    Project(taskId, expected, task, ProjectionEffect(taskId, task.journalVersion, EffectKey(OtherSpace, n)))
  }

  /** A swap computed from what the store holds now. */
  lemma SwapIsHonest(ws: seq<World>, a: Action, key: Id, r: J.Record, current: Option<StoredTask>)
    requires ws != [] && a.Project? && FindTask(Last(ws).disk.tasks, a.taskId) == current
    requires a.expected == VersionOf(current) && P.Projectable(r) && P.Project(key, r, current) == Ok(a.task)
    ensures Honestly(ws, a)
  {
    assert ProjectedFrom(ws[|ws| - 1], a);
  }

  lemma SwapSteps(w: World, a: Action)
    requires a.Project? && !IsProductKey(a.effect.key) && Room(w.disk)
    ensures Step(w, a) == w.(disk := TaskOutcome(w, a).disk)
  {
  }

  predicate Replaces(found: Option<StoredTask>, task: StoredTask) {
    && ValidStoredTask(task)
    && task.version == VersionOf(found) + 1
    && (found.Some? ==> ProjectionAllowed(found.value, task) && found.value.version >= 0)
  }

  lemma SwapWrites(w: World, current: seq<StoredTask>, task: StoredTask, base: int, n: nat) returns (e: Effect)
    requires Holds(w.disk, current, n) && n < 8 && w.cap == ONE_TASK && Replaces(FindTask(current, task.taskId), task)
    ensures
      var v := Step(w, Swap(task.taskId, task.version - 1, task.(version := base), n));
      v.cap == ONE_TASK && v.disk == Save(w.disk, PutTask(w.disk, task, e), ONE_TASK, Stored(task)).disk
    ensures e.key.name == n
  {
    var a := Swap(task.taskId, task.version - 1, task.(version := base), n);
    e := ProjectedEffect(a.effect, task.version, w.now);
    SwapSteps(w, a);
    SwapGoesThrough(w.disk, w.cap, task.taskId, task.(version := base), task, EffectKey(OtherSpace, n), w.now);
  }

  /** The task is what a projector makes of the record and the task it finds, and passes the guards. */
  predicate Projects(found: Option<StoredTask>, task: StoredTask, r: J.Record) {
    && Replaces(found, task) && P.Projectable(r)
    && P.Project(task.taskId, r, found).Ok?
    && P.Project(task.taskId, r, found) == Ok(task.(version := P.Project(task.taskId, r, found).value.version))
  }

  /** A swap of what the store holds now that the guards let through, as a step of a run. */
  lemma SwapSaves(ws: seq<World>, current: seq<StoredTask>, task: StoredTask, n: nat, r: J.Record)
    returns (v: World, e: Effect)
    requires Trace(ws) && Holds(Last(ws).disk, current, n) && n < 8 && Last(ws).cap == ONE_TASK
    requires Projects(FindTask(current, task.taskId), task, r)
    ensures Trace(ws + [v]) && v.cap == ONE_TASK
    ensures e.key.name == n && v.disk == Save(Last(ws).disk, PutTask(Last(ws).disk, task, e), ONE_TASK, Stored(task)).disk
  {
    var base := P.Project(task.taskId, r, FindTask(current, task.taskId)).value.version;
    var a := Swap(task.taskId, task.version - 1, task.(version := base), n);
    v := Step(Last(ws), a);
    SwapIsHonest(ws, a, task.taskId, r, FindTask(current, task.taskId));
    TraceGrows(ws, a);
    e := SwapWrites(Last(ws), current, task, base, n);
  }

  lemma StoresOver(ws: seq<World>, current: seq<StoredTask>, task: StoredTask, n: nat, r: J.Record) returns (v: World)
    requires Trace(ws) && Holds(Last(ws).disk, current, n) && n < 8 && Last(ws).cap == ONE_TASK
    requires current == [] || (|current| == 1 && current[0].taskId == task.taskId)
    requires Projects(if current == [] then None else Some(current[0]), task, r)
    ensures Trace(ws + [v]) && Holds(v.disk, [task], n + 1) && v.cap == ONE_TASK
  {
    var e;
    v, e := SwapSaves(ws, current, task, n, r);
    SavesAlone(Last(ws).disk, task, e, current, n, Stored(task));
  }

  lemma StoresInstead(ws: seq<World>, x: StoredTask, task: StoredTask, n: nat, r: J.Record) returns (v: World)
    requires Trace(ws) && Holds(Last(ws).disk, [x], n) && n < 8 && Last(ws).cap == ONE_TASK
    requires x.taskId != task.taskId && Projects(None, task, r)
    requires x.visibility == DeletedTask && (task.visibility == DeletedTask ==> x.updatedAt < task.updatedAt)
    ensures Trace(ws + [v]) && Holds(v.disk, [task], n + 1) && v.cap == ONE_TASK
  {
    assert FindTask([x], task.taskId) == None;
    var e;
    v, e := SwapSaves(ws, [x], task, n, r);
    SavesInstead(Last(ws).disk, x, task, e, n, Stored(task));
  }

  /** The first half of the run: the task is stored and deleted. */
  lemma StoreAndDelete(first: StoredTask, gone: StoredTask, r0: J.Record, r1: J.Record) returns (ws: seq<World>)
    requires Projects(None, first, r0) && Projects(Some(first), gone, r1) && first.taskId == gone.taskId
    ensures |ws| == 3 && Trace(ws) && Last(ws).cap == ONE_TASK
    ensures ws[1].disk.tasks == [first] && Holds(ws[2].disk, [gone], 2)
  {
    hide Projects, Step;
    ws := [Init(0, ONE_TASK, 100)];
    var v := StoresOver(ws, [], first, 0, r0);
    ws := ws + [v];
    v := StoresOver(ws, [first], gone, 1, r1);
    ws := ws + [v];
  }

  /** The second half: it is dropped in favour of another one, and stored anew. */
  lemma DropAndRemake(start: seq<World>, gone: StoredTask, other: StoredTask, remade: StoredTask, r2: J.Record, r3: J.Record)
    returns (ws: seq<World>)
    requires |start| == 3 && Trace(start) && Last(start).cap == ONE_TASK && Holds(start[2].disk, [gone], 2)
    requires Projects(None, other, r2) && Projects(None, remade, r3) && other.taskId != gone.taskId == remade.taskId
    requires gone.visibility == other.visibility == DeletedTask && gone.updatedAt < other.updatedAt
    requires remade.visibility != DeletedTask
    ensures |ws| == 5 && ws[..3] == start && Trace(ws) && Last(ws).cap == ONE_TASK
    ensures ws[3].disk.tasks == [other] && Holds(ws[4].disk, [remade], 4)
  {
    hide Trace, Projects;
    var v := StoresInstead(start, gone, other, 2, r2);
    ws := start + [v];
    v := StoresInstead(ws, other, remade, 3, r3);
    ws := ws + [v];
  }

  /** The late swap was computed from the task that was dropped since. */
  lemma LateSwapSpansRemaking(
    ws: seq<World>, first: StoredTask, other: StoredTask, remade: StoredTask, late: StoredTask, r: J.Record, a: Action)
    requires |ws| == 5 && ws[1].disk.tasks == [first] && ws[3].disk.tasks == [other] && ws[4].disk.tasks == [remade]
    requires first.version == 1 && first.taskId == remade.taskId == late.taskId != other.taskId
    requires P.Projectable(r) && P.Project(late.taskId, r, Some(first)) == Ok(late.(version := 0))
    requires a == Swap(late.taskId, 1, late.(version := 0), 4)
    ensures ProjectedFrom(ws[1], a) && Recreated(ws, 1, a.taskId)
  {
    assert FindTask(ws[1].disk.tasks, late.taskId) == Some(first);
    assert first in ws[1].disk.tasks && remade in ws[4].disk.tasks && !HasTaskOf(ws[3], late.taskId);
  }

  /** A late swap that finds the remade task is let through by the version check and stored. */
  lemma LateSwapGoesThrough(w: World, remade: StoredTask, late: StoredTask, a: Action)
    requires w.cap == ONE_TASK && Holds(w.disk, [remade], 4) && remade.version == 1 && remade.taskId == late.taskId
    requires Replaces(Some(remade), late) && a == Swap(late.taskId, 1, late.(version := 0), 4)
    ensures !Stale(w.disk, a.taskId, a.expected) && late in Step(w, a).disk.tasks
  {
    var e := SwapWrites(w, [remade], late, 0, 4);
    SavesAlone(w.disk, late, e, [remade], 4, Stored(late));
    assert Step(w, a).disk.tasks[0] == late;
  }

  lemma TheFirstTaskIsProjected()
    ensures Projects(None, FirstTask(), Version(1, J.Accepted, None))
  {
    hide ProjectionAllowed;
  }

  lemma TheGoneTaskIsProjected()
    ensures Projects(Some(FirstTask()), GoneTask(), Version(4, J.Deleted, None))
  {
  }

  lemma TheOtherTaskIsProjected()
    ensures Projects(None, OtherTask(), Version(5, J.Deleted, None))
  {
  }

  lemma TheRemadeTaskIsProjected()
    ensures Projects(None, RemadeTask(), Version(2, J.Accepted, Some(StatusProcessing)))
  {
  }

  lemma TheLateTask()
    ensures P.Projectable(Version(3, J.Accepted, Some(StatusPending)))
    ensures P.Project(1, Version(3, J.Accepted, Some(StatusPending)), Some(FirstTask())) == Ok(LateTask().(version := 0))
    ensures Replaces(Some(RemadeTask()), LateTask()) && !Advances(RemadeTask(), LateTask())
  {
    assert RemadeTask().lifecycle == Running && LateTask().lifecycle == ProviderAccepted;
  }

  /** The task is stored, deleted, dropped, and stored anew from an older version of its record. */
  lemma TheRun() returns (ws: seq<World>)
    ensures |ws| == 5 && Trace(ws) && Last(ws).cap == ONE_TASK
    ensures ws[1].disk.tasks == [FirstTask()] && ws[3].disk.tasks == [OtherTask()] && Holds(ws[4].disk, [RemadeTask()], 4)
  {
    hide Trace, Projects, Holds;
    TheFirstTaskIsProjected();
    TheGoneTaskIsProjected();
    TheOtherTaskIsProjected();
    TheRemadeTaskIsProjected();
    ws := StoreAndDelete(FirstTask(), GoneTask(), Version(1, J.Accepted, None), Version(4, J.Deleted, None));
    ws := DropAndRemake(ws, GoneTask(), OtherTask(), RemadeTask(), Version(5, J.Deleted, None),
                        Version(2, J.Accepted, Some(StatusProcessing)));
  }

  /** Versions start over when a task is dropped and made anew, so the version check can mistake the
      new task for the old one: a projection that spans the remaking is let through although it
      was computed from the old task, and takes the lifecycle of the new one back. */
  lemma RemadeTaskCanRegress() returns (ws: seq<World>, a: Action, t: StoredTask, u: StoredTask)
    ensures Trace(ws) && |ws| == 5 && ProjectedFrom(ws[1], a) && Recreated(ws, 1, a.taskId)
    ensures !Stale(Last(ws).disk, a.taskId, a.expected)
    ensures t in Last(ws).disk.tasks && u in Step(Last(ws), a).disk.tasks && t.taskId == u.taskId == a.taskId
    ensures !Advances(t, u)
  {
    hide Trace, Recreated, ProjectedFrom, Stale;
    t, u := RemadeTask(), LateTask();
    TheLateTask();
    ws := TheRun();
    a := Swap(1, 1, u.(version := 0), 4);
    LateSwapSpansRemaking(ws, FirstTask(), OtherTask(), t, u, Version(3, J.Accepted, Some(StatusPending)), a);
    LateSwapGoesThrough(Last(ws), t, u, a);
    assert Last(ws).disk.tasks[0] == t;
  }
}
