/** Projections and product mutations interleaved over whole runs of the store, and the projector's
    compare-and-swap loop. */
module ProjectionRuns {
  import opened Prelude
  import opened Lists
  import opened TaskContract
  import opened TaskStore
  import opened StoreGate
  import opened StoreSteps
  import opened StoreRuns
  import opened StoreProcess
  import J = JournalRecord
  import P = Projection

  // ---- Versions tell images apart -----------------------------------------------------------------------

  /** A later image has a higher version or is the same image. */
  predicate Follows(t: StoredTask, u: StoredTask) {
    u.taskId == t.taskId && t.version <= u.version && (t.version == u.version ==> u == t)
  }

  lemma StepFollows(w: World, a: Action, t: StoredTask, u: StoredTask)
    requires Inv(w) && t in w.disk.tasks && u in Step(w, a).disk.tasks && u.taskId == t.taskId
    ensures Follows(t, u)
  {
    StepKeepsInv(w, a);
    FindsTask(w.disk.tasks, t);
    FindsTask(Step(w, a).disk.tasks, u);
    if Allowed(w, a) && Room(w.disk) {
      OutcomeIsExplained(w, a);
    }
  }

  /** The compare-and-swap is safe: while the task stays in the store, finding the version one has
      read means finding the task one has read. */
  lemma {:induction false} VersionIdentifiesTask(w: World, actions: seq<Action>, t: StoredTask, u: StoredTask)
    requires Inv(w) && t in w.disk.tasks && PresentThroughout(w, actions, t.taskId)
    requires u in Run(w, actions).disk.tasks && u.taskId == t.taskId
    ensures Follows(t, u)
    decreases |actions|
  {
    if actions == [] {
      UniqueMember(w.disk.tasks, TaskKey, t, u);
    } else {
      var v := Step(w, actions[0]);
      StepKeepsInv(w, actions[0]);
      var s :| s in v.disk.tasks && s.taskId == t.taskId;
      StepFollows(w, actions[0], t, s);
      VersionIdentifiesTask(v, actions[1..], s, u);
    }
  }

  // ---- Projections of a task read earlier --------------------------------------------------------------------

  predicate HasTaskOf(w: World, taskId: Id) {
    HasTask(w.disk.tasks, taskId)
  }

  function Last(ws: seq<World>): World
    requires ws != []
  {
    ws[|ws| - 1]
  }

  function VersionOf(current: Option<StoredTask>): int {
    if current.Some? then current.value.version else 0
  }

  /** The projector read the task in `seen`, projected a record over it, and asks for the swap. */
  ghost predicate ProjectedFrom(seen: World, a: Action) {
    && a.Project?
    && a.expected == VersionOf(FindTask(seen.disk.tasks, a.taskId))
    && exists key, r :: P.Projectable(r) && P.Project(key, r, FindTask(seen.disk.tasks, a.taskId)) == Ok(a.task)
  }

  /** The task was there, was dropped, and is there again. */
  ghost predicate Recreated(ws: seq<World>, i: nat, taskId: Id)
    requires i < |ws|
  {
    && HasTaskOf(ws[i], taskId) && HasTaskOf(Last(ws), taskId)
    && exists j :: i <= j < |ws| && !HasTaskOf(ws[j], taskId)
  }

  /** Every projection was computed from the task as it was at some moment of the run, however long
      ago, and whatever has been written since, as long as the task was not dropped and made anew. */
  ghost predicate Honestly(ws: seq<World>, a: Action) {
    a.Project? ==> exists i :: 0 <= i < |ws| && ProjectedFrom(ws[i], a) && !Recreated(ws, i, a.taskId)
  }

  /** The worlds of a run of honest projections and anything else, the present one last. */
  ghost predicate Trace(ws: seq<World>) {
    && ws != []
    && (if |ws| == 1 then Inv(ws[0]) else Trace(ws[..|ws| - 1]) && Continues(ws[..|ws| - 1], Last(ws)))
  }

  ghost predicate Continues(ws: seq<World>, v: World)
    requires ws != []
  {
    exists a :: Honestly(ws, a) && v == Step(Last(ws), a)
  }

  lemma {:induction false} TraceKeepsInv(ws: seq<World>, i: nat)
    requires Trace(ws) && i < |ws|
    ensures Inv(ws[i])
  {
    hide Inv, Step, Honestly;
    if |ws| > 1 {
      var front := ws[..|ws| - 1];
      if i < |front| {
        TraceKeepsInv(front, i);
      } else {
        var a :| Honestly(front, a) && Last(ws) == Step(Last(front), a);
        TraceKeepsInv(front, |front| - 1);
        StepKeepsInv(Last(front), a);
      }
    }
  }

  lemma {:induction false} TraceIdentifiesTask(ws: seq<World>, i: nat, t: StoredTask, u: StoredTask)
    requires Trace(ws) && i < |ws| && t in ws[i].disk.tasks
    requires forall j :: i <= j < |ws| ==> HasTaskOf(ws[j], t.taskId)
    requires u in Last(ws).disk.tasks && u.taskId == t.taskId
    ensures Follows(t, u)
  {
    hide Step, Honestly;
    TraceKeepsInv(ws, i);
    if i == |ws| - 1 {
      UniqueMember(ws[i].disk.tasks, TaskKey, t, u);
    } else {
      var front := ws[..|ws| - 1];
      var a :| Honestly(front, a) && Last(ws) == Step(Last(front), a);
      assert HasTaskOf(ws[|ws| - 2], t.taskId);
      var s :| s in Last(front).disk.tasks && s.taskId == t.taskId;
      TraceIdentifiesTask(front, i, t, s);
      TraceKeepsInv(front, |front| - 1);
      StepFollows(Last(front), a, s, u);
    }
  }

  lemma {:induction false} TraceGrows(ws: seq<World>, a: Action)
    requires Trace(ws) && Honestly(ws, a)
    ensures Trace(ws + [Step(Last(ws), a)])
  {
    var longer := ws + [Step(Last(ws), a)];
    assert longer[..|longer| - 1] == ws;
  }

  predicate Stale(d: Disk, taskId: Id, expected: int) {
    var current := FindTask(d.tasks, taskId);
    if current.Some? then current.value.version != expected else expected != 0
  }

  /** A projection that writes writes what the projector computes from the task it replaces. */
  ghost predicate Faithful(w: World, a: Action) {
    a.Project? ==>
      exists key, r ::
        && P.Projectable(r)
        && P.Project(key, r, FindTask(w.disk.tasks, a.taskId)) == Ok(a.task)
  }

  /** A stale swap changes nothing. */
  lemma StaleSwapIsRefused(w: World, a: Action)
    requires a.Project? && Stale(w.disk, a.taskId, a.expected)
    ensures Step(w, a) == w
  {
  }

  /** In sound stores the version tells whether there is a task, too. */
  lemma FreshSwapMatches(w: World, seen: World, taskId: Id)
    requires Inv(w) && Inv(seen) && !Stale(w.disk, taskId, VersionOf(FindTask(seen.disk.tasks, taskId)))
    ensures FindTask(w.disk.tasks, taskId).Some? <==> FindTask(seen.disk.tasks, taskId).Some?
    ensures VersionOf(FindTask(w.disk.tasks, taskId)) == VersionOf(FindTask(seen.disk.tasks, taskId))
  {
    assert forall t :: t in w.disk.tasks ==> ValidStoredTask(t);
    assert forall t :: t in seen.disk.tasks ==> ValidStoredTask(t);
  }

  lemma StaysUnlessRecreated(ws: seq<World>, i: nat, taskId: Id)
    requires i < |ws| && !Recreated(ws, i, taskId) && HasTaskOf(ws[i], taskId) && HasTaskOf(Last(ws), taskId)
    ensures forall j :: i <= j < |ws| ==> HasTaskOf(ws[j], taskId)
  {
  }

  lemma {:induction false} SameVersionSameTask(ws: seq<World>, i: nat, t: StoredTask, u: StoredTask)
    requires Trace(ws) && i < |ws| && !Recreated(ws, i, t.taskId)
    requires t in ws[i].disk.tasks && u in Last(ws).disk.tasks && u.taskId == t.taskId && u.version == t.version
    ensures u == t
  {
    StaysUnlessRecreated(ws, i, t.taskId);
    TraceIdentifiesTask(ws, i, t, u);
  }

  lemma {:induction false} FreshSwapFinds(ws: seq<World>, i: nat, taskId: Id)
    requires Trace(ws) && i < |ws| && !Stale(Last(ws).disk, taskId, VersionOf(FindTask(ws[i].disk.tasks, taskId)))
    ensures FindTask(Last(ws).disk.tasks, taskId).Some? <==> FindTask(ws[i].disk.tasks, taskId).Some?
    ensures VersionOf(FindTask(Last(ws).disk.tasks, taskId)) == VersionOf(FindTask(ws[i].disk.tasks, taskId))
  {
    TraceKeepsInv(ws, i);
    TraceKeepsInv(ws, |ws| - 1);
    FreshSwapMatches(Last(ws), ws[i], taskId);
  }

  lemma {:induction false} SeenIsFound(ws: seq<World>, i: nat, taskId: Id)
    requires Trace(ws) && i < |ws| && !Recreated(ws, i, taskId)
    requires !Stale(Last(ws).disk, taskId, VersionOf(FindTask(ws[i].disk.tasks, taskId)))
    ensures FindTask(ws[i].disk.tasks, taskId) == FindTask(Last(ws).disk.tasks, taskId)
  {
    FreshSwapFinds(ws, i, taskId);
    var seen, found := FindTask(ws[i].disk.tasks, taskId), FindTask(Last(ws).disk.tasks, taskId);
    if seen.Some? {
      SameVersionSameTask(ws, i, seen.value, found.value);
    }
  }

  /** The version check does its work: a projection of a task read at any earlier moment either is
      refused without a trace, or replaces exactly the task it was computed from. */
  lemma {:induction false} LateSwapIsFaithfulOrRefused(ws: seq<World>, a: Action)
    requires Trace(ws) && Honestly(ws, a)
    ensures Faithful(Last(ws), a) || Step(Last(ws), a) == Last(ws)
  {
    if a.Project? {
      if Stale(Last(ws).disk, a.taskId, a.expected) {
        StaleSwapIsRefused(Last(ws), a);
      } else {
        var i :| 0 <= i < |ws| && ProjectedFrom(ws[i], a) && !Recreated(ws, i, a.taskId);
        SeenIsFound(ws, i, a.taskId);
      }
    }
  }

  // ---- The lifecycle over runs -----------------------------------------------------------------------------

  predicate Advances(t: StoredTask, u: StoredTask) {
    Rank(t.lifecycle) <= Rank(u.lifecycle) && (t.lifecycle == Terminal ==> u.outcome == t.outcome)
  }

  lemma ProjectedAdvances(w: World, a: Action, t: StoredTask)
    requires a.Project? && Faithful(w, a) && FindTask(w.disk.tasks, a.taskId) == Some(t) && ValidStoredTask(t)
    ensures Advances(t, a.task)
  {
    var key, r :| P.Projectable(r) && P.Project(key, r, FindTask(w.disk.tasks, a.taskId)) == Ok(a.task);
    P.ProjectionIsMonotone(key, r, t);
  }

  lemma StepAdvances(w: World, a: Action, t: StoredTask, u: StoredTask)
    requires Inv(w) && (Faithful(w, a) || Step(w, a) == w)
    requires t in w.disk.tasks && u in Step(w, a).disk.tasks && u.taskId == t.taskId
    ensures Advances(t, u)
  {
    FindsTask(w.disk.tasks, t);
    if u in w.disk.tasks {
      UniqueMember(w.disk.tasks, TaskKey, t, u);
    } else {
      TasksAfter(w, a, u);
      TaskWrites(w, a);
      if a.Project? {
        ProjectedAdvances(w, a, t);
      } else {
        MutationKeeps(t, a.mutation);
      }
    }
  }

  /** How the present world came about. */
  lemma LastStep(ws: seq<World>) returns (w: World, a: Action)
    requires Trace(ws) && |ws| > 1
    ensures w == ws[|ws| - 2] && Inv(w) && Last(ws) == Step(w, a) && (Faithful(w, a) || Step(w, a) == w)
  {
    var front := ws[..|ws| - 1];
    w := Last(front);
    a :| Honestly(front, a) && Last(ws) == Step(Last(front), a);
    LateSwapIsFaithfulOrRefused(front, a);
    TraceKeepsInv(front, |front| - 1);
  }

  lemma {:induction false} LastStepAdvances(ws: seq<World>, s: StoredTask, u: StoredTask)
    requires Trace(ws) && |ws| > 1 && s in ws[|ws| - 2].disk.tasks
    requires u in Last(ws).disk.tasks && u.taskId == s.taskId
    ensures Advances(s, u)
  {
    var w, a := LastStep(ws);
    StepAdvances(w, a, s, u);
  }

  /** Over any mix of projections, lost races included, product mutations, deliveries and
      compactions, as long as the task stays in the store its lifecycle never steps back and a
      terminal outcome never changes. */
  lemma {:induction false} LifecycleNeverRegresses(ws: seq<World>, i: nat, t: StoredTask, u: StoredTask)
    requires Trace(ws) && i < |ws| && t in ws[i].disk.tasks
    requires forall j :: i <= j < |ws| ==> HasTaskOf(ws[j], t.taskId)
    requires u in Last(ws).disk.tasks && u.taskId == t.taskId
    ensures Advances(t, u)
  {
    hide Step, Honestly;
    TraceKeepsInv(ws, i);
    if i == |ws| - 1 {
      UniqueMember(ws[i].disk.tasks, TaskKey, t, u);
    } else {
      var front := ws[..|ws| - 1];
      assert HasTaskOf(ws[|ws| - 2], t.taskId);
      var s :| s in Last(front).disk.tasks && s.taskId == t.taskId;
      LifecycleNeverRegresses(front, i, t, s);
      TraceKeepsInv(front, |front| - 1);
      TerminalHasOutcome(Last(front), s);
      LastStepAdvances(ws, s, u);
    }
  }

  lemma TerminalHasOutcome(w: World, t: StoredTask)
    requires Inv(w) && t in w.disk.tasks
    ensures t.lifecycle == Terminal <==> t.outcome.Some?
  {
    assert ValidStoredTask(t);
  }

  function ProjectionEffect(key: Id, version: int, name: EffectKey): EffectInput {
    EffectInput(name, key, Some(version))
  }

  /** Every stored task without a result has no outputs. */
  ghost predicate Honest(d: Disk) {
    forall t :: t in d.tasks ==> P.ResultsMatchOutputs(t)
  }

  lemma StepKeepsHonest(w: World, a: Action)
    requires Inv(w) && Honest(w.disk) && Faithful(w, a)
    ensures Honest(Step(w, a).disk)
  {
    forall u | u in Step(w, a).disk.tasks && u !in w.disk.tasks ensures P.ResultsMatchOutputs(u) {
      TasksAfter(w, a, u);
      TaskWrites(w, a);
      var current := FindTask(w.disk.tasks, a.taskId);
      if a.Project? {
        var key, r :| P.Projectable(r) && P.Project(key, r, current) == Ok(a.task);
        P.ProjectionIsHonest(key, r, current);
      } else {
        P.MutationIsMonotone(current.value, a.mutation);
      }
    }
  }

  lemma {:induction false} TraceKeepsHonest(ws: seq<World>)
    requires Trace(ws) && Honest(ws[0].disk)
    ensures Honest(Last(ws).disk)
  {
    if |ws| > 1 {
      var front := ws[..|ws| - 1];
      TraceKeepsHonest(front);
      var w, a := LastStep(ws);
      if Faithful(w, a) { StepKeepsHonest(w, a); }
    }
  }

  /** In every store reached by projections, lost races included, product mutations and deliveries, the projection of a
      strictly newer version of a record that agrees with the stored task passes all the checks
      of the store: only a full store can keep it out. */
  lemma {:induction false} NewerVersionsGoThrough(ws: seq<World>, key: Id, r: J.Record, name: EffectKey)
    requires Trace(ws) && ws[0].disk == EMPTY_DISK && P.Projectable(r)
    requires
      var d := Last(ws).disk;
      var current := FindTask(d.tasks, key);
      && !HasEffect(d.outbox, name)
      && (current.Some? ==>
            && P.SameIdentity(key, r, current.value) && !P.Rebinds(r, current.value)
            && P.AgreesOnProduct(r, current.value)
            && r.version > current.value.journalVersion && current.value.version < MAX_SAFE_INTEGER)
    ensures
      var w := Last(ws);
      var current := FindTask(w.disk.tasks, key);
      var next := P.Project(key, r, current);
      && next.Ok?
      && var task := SwappedTask(current, key, next.value);
      var e := ProjectedEffect(ProjectionEffect(key, r.version, name), task.version, w.now);
      CompareAndSwap(w.disk, w.cap, key, VersionOf(current), next.value, ProjectionEffect(key, r.version, name), w.now)
        == Save(w.disk, PutTask(w.disk, task, e), w.cap, Stored(task))
  {
    TraceKeepsHonest(ws);
    TraceKeepsInv(ws, |ws| - 1);
    var w := Last(ws);
    ProjectionPasses(w.disk, w.cap, key, r, name, w.now);
  }

  lemma SwapGoesThrough(d: Disk, cap: Capacity, key: Id, next: StoredTask, task: StoredTask, name: EffectKey, now: int)
    requires next.taskId == key && task == SwappedTask(FindTask(d.tasks, key), key, next)
    requires ValidStoredTask(task) && 1 <= task.version <= MAX_SAFE_INTEGER && !HasEffect(d.outbox, name)
    requires FindTask(d.tasks, key).Some? ==>
      FindTask(d.tasks, key).value.version >= 0 && ProjectionAllowed(FindTask(d.tasks, key).value, task)
    ensures
      var effect := ProjectionEffect(key, task.journalVersion, name);
      CompareAndSwap(d, cap, key, task.version - 1, next, effect, now)
        == Save(d, PutTask(d, task, ProjectedEffect(effect, task.version, now)), cap, Stored(task))
  {
    var e := ProjectedEffect(ProjectionEffect(key, task.journalVersion, name), task.version, now);
    assert ValidEffect(e);
    assert MayProject(FindTask(d.tasks, key), task, e);
  }

  lemma ProjectionPasses(d: Disk, cap: Capacity, key: Id, r: J.Record, name: EffectKey, now: int)
    requires TasksOk(d.tasks) && Honest(d) && P.Projectable(r) && !HasEffect(d.outbox, name)
    requires
      var current := FindTask(d.tasks, key);
      current.Some? ==>
        && P.SameIdentity(key, r, current.value) && !P.Rebinds(r, current.value)
        && P.AgreesOnProduct(r, current.value)
        && r.version > current.value.journalVersion && current.value.version < MAX_SAFE_INTEGER
    ensures
      var current := FindTask(d.tasks, key);
      var next := P.Project(key, r, current);
      && next.Ok?
      && var task := SwappedTask(current, key, next.value);
      var e := ProjectedEffect(ProjectionEffect(key, r.version, name), task.version, now);
      CompareAndSwap(d, cap, key, VersionOf(current), next.value, ProjectionEffect(key, r.version, name), now)
        == Save(d, PutTask(d, task, e), cap, Stored(task))
  {
    var current := FindTask(d.tasks, key);
    var version := if current.Some? then current.value.version + 1 else 1;
    if current.Some? { assert ValidStoredTask(current.value); }
    P.ProjectionIsAccepted(key, r, current, version);
    P.ProjectedNames(key, r, current);
    var next := P.Project(key, r, current).value;
    SwapGoesThrough(d, cap, key, next, next.(version := version), name, now);
  }

  // ---- The compare-and-swap loop -----------------------------------------------------------------------------

  const MAX_ATTEMPTS := 4

  datatype ProjectorReply =
    | Projected(stored: StoredTask)
    | StoreRefused(error: StoreError)
    | ProjectorRefused(why: P.ProjectionError)
    | GaveUp

  datatype Round = Answered(reply: ProjectorReply, written: Option<Disk>) | Conflicted

  /** One round of `projectJournalVersion`: read the task from `seen`, project over it, and swap it
      into `found`, the store as other processes may have left it in between. */
  function ProjectRound(seen: Disk, found: Disk, cap: Capacity, key: Id, r: J.Record, name: EffectKey, now: int): Round {
    var current := FindTask(seen.tasks, key);
    if current.Some? && !P.SameIdentity(key, r, current.value) then
      Answered(ProjectorRefused(P.IdentityChanged), None)
    else if current.Some? && current.value.journalVersion >= r.version then
      Answered(Projected(current.value), None)
    else
      var next := P.Project(key, r, current);
      if next.Err? then
        Answered(ProjectorRefused(next.error), None)
      else
        var expected := if current.Some? then current.value.version else 0;
        var o := CompareAndSwap(found, cap, key, expected, next.value, ProjectionEffect(key, r.version, name), now);
        if o.reply == Err(VersionConflict) then Conflicted
        else if o.reply.Err? then Answered(StoreRefused(o.reply.error), None)
        else Answered(Projected(SwappedTask(FindTask(found.tasks, key), key, next.value)), Some(o.disk))
  }

  /** What each round would come to, if it is reached. */
  function Rounds(
    seen: seq<Disk>, found: seq<Disk>, cap: Capacity, key: Id, r: J.Record, name: EffectKey, now: int): (s: seq<Round>)
    requires |seen| == |found| == MAX_ATTEMPTS
    ensures |s| == MAX_ATTEMPTS
    ensures forall k :: 0 <= k < |s| ==> s[k] == ProjectRound(seen[k], found[k], cap, key, r, name, now)
  {
    seq(MAX_ATTEMPTS, k requires 0 <= k < MAX_ATTEMPTS => ProjectRound(seen[k], found[k], cap, key, r, name, now))
  }

  /** The loop: the first round without a conflict answers. */
  function FirstAnswer(rounds: seq<Round>): Round {
    if rounds == [] then Answered(GaveUp, None)
    else if rounds[0].Conflicted? then FirstAnswer(rounds[1..])
    else rounds[0]
  }

  lemma {:induction false} FirstAnswerComesFrom(rounds: seq<Round>)
    ensures FirstAnswer(rounds).Answered?
    ensures FirstAnswer(rounds) in rounds
         || (FirstAnswer(rounds) == Answered(GaveUp, None) && forall o :: o in rounds ==> o.Conflicted?)
  {
    if rounds != [] {
      FirstAnswerComesFrom(rounds[1..]);
    }
  }

  /** A swap conflicts exactly when the version is not the expected one, and a swap that goes
      through answers with the task it stored. */
  lemma SwapReply(d: Disk, cap: Capacity, taskId: Id, expected: int, input: StoredTask, effect: EffectInput, now: int)
    requires 0 <= expected <= MAX_SAFE_INTEGER
    ensures
      var o := CompareAndSwap(d, cap, taskId, expected, input, effect, now);
      && (o.reply == Err(VersionConflict) <==> Stale(d, taskId, expected))
      && (o.reply.Ok? ==> o.reply.value == Stored(SwappedTask(FindTask(d.tasks, taskId), taskId, input)))
  {
  }

  lemma ProjectedVersion(key: Id, r: J.Record, current: Option<StoredTask>)
    requires P.Project(key, r, current).Ok? && (current.Some? ==> P.SameIdentity(key, r, current.value))
    ensures
      var next := P.Project(key, r, current).value;
      next.journalVersion == r.version && next.requestHash == r.requestHash
  {
  }

  /** A round of the loop that gets as far as the swap asks for a swap of this kind. */
  lemma RoundSwapsWhatItRead(seen: World, found: World, key: Id, r: J.Record, name: EffectKey)
    requires P.Projectable(r)
    ensures
      var current := FindTask(seen.disk.tasks, key);
      var next := P.Project(key, r, current);
      (current.Some? ==> P.SameIdentity(key, r, current.value) && current.value.journalVersion < r.version) && next.Ok? ==>
        var swap := Project(key, VersionOf(current), next.value, ProjectionEffect(key, r.version, name));
        var round := ProjectRound(seen.disk, found.disk, found.cap, key, r, name, found.now);
        && ProjectedFrom(seen, swap)
        && (round.Conflicted? || round.written.None? || round.written == Some(TaskOutcome(found, swap).disk))
  {
  }

  lemma NextAnswer(rounds: seq<Round>, k: nat)
    requires k < |rounds|
    ensures FirstAnswer(rounds[k..]) == if rounds[k].Conflicted? then FirstAnswer(rounds[k + 1..]) else rounds[k]
  {
    assert rounds[k..][1..] == rounds[k + 1..];
  }

  predicate SafeVersions(d: Disk) {
    forall t :: t in d.tasks ==> 1 <= t.version <= MAX_SAFE_INTEGER
  }

  /** A round meets a conflict only if the task changed, and any task it answers with is at least
      as new as the record. */
  predicate RoundIsGood(outcome: Round, seen: Disk, found: Disk, key: Id, r: J.Record) {
    if outcome.Conflicted? then
      FindTask(found.tasks, key) != FindTask(seen.tasks, key)
    else
      && !outcome.reply.GaveUp?
      && (outcome.reply.Projected? ==>
            outcome.reply.stored.journalVersion >= r.version && outcome.reply.stored.requestHash == r.requestHash)
  }

  lemma RoundDelivers(seen: Disk, found: Disk, cap: Capacity, key: Id, r: J.Record, name: EffectKey, now: int)
    requires SafeVersions(seen)
    ensures RoundIsGood(ProjectRound(seen, found, cap, key, r, name, now), seen, found, key, r)
  {
    var current := FindTask(seen.tasks, key);
    var next := P.Project(key, r, current);
    if next.Ok? && (current.Some? ==> P.SameIdentity(key, r, current.value)) {
      ProjectedVersion(key, r, current);
      SwapReply(found, cap, key, if current.Some? then current.value.version else 0, next.value,
                ProjectionEffect(key, r.version, name), now);
    }
  }

  /** When the loop answers with a task, that task has seen at least the wanted version of the same
      record; and it gives up only if the task changed between read and swap in every round. */
  lemma LoopDelivers(
    seen: seq<Disk>, found: seq<Disk>, cap: Capacity, key: Id, r: J.Record, name: EffectKey, now: int)
    requires |seen| == |found| == MAX_ATTEMPTS
    requires forall k :: 0 <= k < MAX_ATTEMPTS ==> SafeVersions(seen[k])
    ensures
      var outcome := FirstAnswer(Rounds(seen, found, cap, key, r, name, now));
      && outcome.Answered?
      && (outcome.reply.Projected? ==>
            outcome.reply.stored.journalVersion >= r.version && outcome.reply.stored.requestHash == r.requestHash)
      && (outcome.reply.GaveUp? ==>
            forall k :: 0 <= k < MAX_ATTEMPTS ==> FindTask(found[k].tasks, key) != FindTask(seen[k].tasks, key))
  {
    var rounds := Rounds(seen, found, cap, key, r, name, now);
    FirstAnswerComesFrom(rounds);
    forall k | 0 <= k < MAX_ATTEMPTS ensures RoundIsGood(rounds[k], seen[k], found[k], key, r) {
      RoundDelivers(seen[k], found[k], cap, key, r, name, now);
      assert rounds[k] in rounds;
    }
  }

  class Projector {
    const store: StoreFile

    constructor (store: StoreFile)
      ensures this.store == store
    {
      this.store := store;
    }

    /** The loop; before each read and each swap other processes leave the store as `seen` and
        `found` say. */
    method ProjectJournalVersion(
      seen: seq<Disk>, found: seq<Disk>, key: Id, r: J.Record, name: EffectKey, now: int)
      returns (reply: ProjectorReply)
      requires |seen| == |found| == MAX_ATTEMPTS
      modifies store
      ensures !P.Projectable(r) ==> reply == ProjectorRefused(P.RecordInvalid) && store.image == old(store.image)
      ensures P.Projectable(r) ==>
        var outcome := FirstAnswer(Rounds(seen, found, store.cap, key, r, name, now));
        && outcome.Answered? && reply == outcome.reply
        && (outcome.written.Some? ==> store.image == outcome.written.value)
    {
      if !P.Projectable(r) { return ProjectorRefused(P.RecordInvalid); }
      ghost var rounds := Rounds(seen, found, store.cap, key, r, name, now);
      var attempt := 0;
      while attempt < MAX_ATTEMPTS
        invariant 0 <= attempt <= MAX_ATTEMPTS
        invariant FirstAnswer(rounds) == FirstAnswer(rounds[attempt..])
      {
        NextAnswer(rounds, attempt);
        var answer := TryOnce(seen[attempt], found[attempt], key, r, name, now);
        if answer.Some? { return answer.value; }
        attempt := attempt + 1;
      }
      return GaveUp;
    }

    /** The body of the loop; no answer means that the swap met a conflict. */
    method TryOnce(seen: Disk, found: Disk, key: Id, r: J.Record, name: EffectKey, now: int)
      returns (answer: Option<ProjectorReply>)
      modifies store
      ensures
        var outcome := ProjectRound(seen, found, store.cap, key, r, name, now);
        if outcome.Conflicted? then answer.None?
        else answer == Some(outcome.reply) && (outcome.written.Some? ==> store.image == outcome.written.value)
    {
      store.image := seen;
      var current := FindTask(store.image.tasks, key);
      if current.Some? && !P.SameIdentity(key, r, current.value) { return Some(ProjectorRefused(P.IdentityChanged)); }
      if current.Some? && current.value.journalVersion >= r.version { return Some(Projected(current.value)); }
      var next := P.Project(key, r, current);
      if next.Err? { return Some(ProjectorRefused(next.error)); }
      store.image := found;
      var expected := if current.Some? then current.value.version else 0;
      var swap := store.CompareAndSwapTask(key, expected, next.value, ProjectionEffect(key, r.version, name), now);
      if swap.Ok? { return Some(Projected(SwappedTask(FindTask(found.tasks, key), key, next.value))); }
      if swap.error == VersionConflict { return None; }
      return Some(StoreRefused(swap.error));
    }
  }
}
