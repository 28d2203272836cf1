/** The product lifecycle of a generation task: its states, the reducer over events, and the
    reading of a runtime journal record as a product state. */
module TaskContract {
  import opened Prelude

  datatype Lifecycle = QueuedLocal | Submitting | SubmissionUncertain | ProviderAccepted | Running | Terminal

  datatype Outcome = Success | Rejection | Failure | Cancellation | FailureOrCancellation

  datatype SyncState = SyncOk | SyncRetryWait | SyncBlockedAccount | SyncUncertain | SyncConflict

  datatype ResultState =
    NotAvailable | PendingMaterialization | Materializing | Ready | FailedRetryable | FailedPermanent

  datatype Media = Image | Video | Audio

  /** The error codes some branch of the source compares with; any other code is its text. */
  datatype ErrorCode =
    | CleanupFailed           // dreamina_reference_cleanup_failed
    | Interrupted             // dreamina_interrupted_before_submission
    | SubmissionUnknown       // dreamina_submission_unknown
    | LocallyCancelled        // dreamina_cancelled
    | OfficialCancelled       // dreamina_official_cancelled
    | OfficialFailed          // dreamina_official_failed
    | OfficialIncomplete      // dreamina_official_incomplete
    | ObservationConflict     // dreamina_observation_conflict
    | AccountSessionChanged   // dreamina_account_session_changed
    | LocalWaitStopped        // dreamina_local_wait_stopped
    | OtherCode(text: string)

  datatype TaskOutput = TaskOutput(
    index: int, media: Media, providerRef: Option<Id>, assetId: Option<Id>, errorCode: Option<ErrorCode>)

  datatype Field = ProjectId | NodeId | ConversationId | MessageId | BatchIndex | BatchCount | RetryOf | AttemptGroupId

  const FIELDS := [ProjectId, NodeId, ConversationId, MessageId, BatchIndex, BatchCount, RetryOf, AttemptGroupId]

  datatype Context = LegacyUnscoped | Scoped(fields: map<Field, Id>)

  datatype Status = StatusPending | StatusProcessing | StatusCompleted | StatusFailed | StatusCancelled

  datatype Observation = Observation(status: Status, observedAt: int, account: Option<Id>, fence: Option<int>)

  datatype TaskState = TaskState(
    lifecycle: Lifecycle, outcome: Option<Outcome>, sync: SyncState, result: ResultState, outputs: seq<TaskOutput>,
    account: Option<Id>, context: Context, observation: Option<Observation>, lastSyncError: Option<ErrorCode>)

  datatype SyncErrorKind = QueryError | TransportError | ParseError | LockError | LoginError | AccountError

  datatype Event =
    | Transition(lifecycle: Lifecycle, outcome: Option<Outcome>)
    | ProviderObservation(observation: Observation)
    | SyncFailed(kind: SyncErrorKind, code: ErrorCode)
    | SyncRecovered
    | BindContext(account: Option<Id>, fields: map<Field, Id>)

  datatype TransitionError = TransitionError

  function Rank(l: Lifecycle): nat {
    match l
    case QueuedLocal => 0
    case Submitting => 1
    case SubmissionUncertain => 2
    case ProviderAccepted => 3
    case Running => 4
    case Terminal => 5
  }

  predicate Forward(from: Lifecycle, to: Lifecycle) {
    match from
    case QueuedLocal => to == Submitting
    case Submitting => to == ProviderAccepted || to == SubmissionUncertain || to == Terminal
    case SubmissionUncertain => to == ProviderAccepted || to == Terminal
    case ProviderAccepted => to == Running || to == Terminal
    case Running => to == Terminal
    case Terminal => false
  }

  function TransitionLifecycle(s: TaskState, to: Lifecycle, outcome: Option<Outcome>): Result<TaskState, TransitionError> {
    if to == s.lifecycle then
      if to != Terminal then
        if outcome.Some? then Err(TransitionError) else Ok(s)
      else
        if outcome.None? || outcome != s.outcome then Err(TransitionError) else Ok(s)
    else if !Forward(s.lifecycle, to)
         || (to == Terminal && outcome.None?)
         || (to != Terminal && outcome.Some?)
         || (s.lifecycle == Submitting && to == Terminal && outcome != Some(Rejection))
         || (s.lifecycle == SubmissionUncertain && to == Terminal) then
      Err(TransitionError)
    else
      var moved := s.(lifecycle := to, outcome := if to == Terminal then outcome else None);
      var synced :=
        if to == SubmissionUncertain then moved.(sync := SyncUncertain)
        else if s.lifecycle == SubmissionUncertain && to == ProviderAccepted
        then moved.(sync := SyncOk, lastSyncError := None)
        else moved;
      Ok(if to == Terminal && outcome == Some(Success) && synced.result == NotAvailable
         then synced.(result := PendingMaterialization) else synced)
  }

  /** The outcome a provider status proves, if it is a final one. */
  function OutcomeOf(status: Status): Option<Outcome> {
    match status
    case StatusCompleted => Some(Success)
    case StatusCancelled => Some(Cancellation)
    case StatusFailed => Some(FailureOrCancellation)
    case _ => None
  }

  predicate ValidObservation(o: Observation) {
    o.fence.Some? ==> 0 <= o.fence.value <= MAX_SAFE_INTEGER
  }

  function Conclude(s: TaskState, outcome: Outcome): TaskState {
    s.(lifecycle := Terminal,
       outcome := Some(outcome),
       result := if outcome == Success && s.result == NotAvailable then PendingMaterialization else s.result)
  }

  function ApplyObservation(s: TaskState, o: Observation): Result<TaskState, TransitionError> {
    if !ValidObservation(o) then
      Err(TransitionError)
    else if s.account.Some? && o.account.Some? && s.account != o.account then
      Ok(s.(sync := SyncConflict))
    else
      var seen := s.(account := if s.account.Some? then s.account else o.account,
                     observation := Some(o),
                     sync := if s.sync == SyncConflict then SyncConflict else SyncOk,
                     lastSyncError := None);
      var outcome := OutcomeOf(o.status);
      Ok(if s.lifecycle == Terminal then
           if outcome.None? || outcome == s.outcome then seen else seen.(sync := SyncConflict)
         else if outcome.Some? then
           Conclude(seen, outcome.value)
         else if o.status == StatusProcessing then
           if s.lifecycle == Running then seen else seen.(lifecycle := Running, outcome := None)
         else if s.lifecycle == Running || s.lifecycle == ProviderAccepted then
           seen
         else
           seen.(lifecycle := ProviderAccepted, outcome := None))
  }

  predicate SafeErrorCode(code: ErrorCode) {
    code.OtherCode? ==>
      && 3 <= |code.text| <= 81
      && 'a' <= code.text[0] <= 'z'
      && forall c :: c in code.text[1..] ==> 'a' <= c <= 'z' || '0' <= c <= '9' || c == '_'
  }

  /** Two contexts disagree on a field both of them define. */
  predicate Clashes(mine: map<Field, Id>, theirs: map<Field, Id>) {
    exists f :: f in mine.Keys * theirs.Keys && mine[f] != theirs[f]
  }

  function BindTaskContext(s: TaskState, account: Option<Id>, fields: map<Field, Id>): TaskState {
    if s.context.LegacyUnscoped? then
      s
    else if (account.Some? && s.account.Some? && account != s.account) || Clashes(s.context.fields, fields) then
      s.(sync := SyncConflict)
    else
      s.(context := Scoped(s.context.fields + fields), account := if s.account.Some? then s.account else account)
  }

  function Reduce(s: TaskState, e: Event): Result<TaskState, TransitionError> {
    match e
    case Transition(to, outcome) => TransitionLifecycle(s, to, outcome)
    case ProviderObservation(o) => ApplyObservation(s, o)
    case SyncFailed(kind, code) =>
      if !SafeErrorCode(code) then Err(TransitionError)
      else Ok(s.(sync := if kind == AccountError then SyncBlockedAccount else SyncRetryWait, lastSyncError := Some(code)))
    case SyncRecovered =>
      Ok(if s.sync == SyncConflict then s else s.(sync := SyncOk, lastSyncError := None))
    case BindContext(account, fields) => Ok(BindTaskContext(s, account, fields))
  }

  lemma FieldIsListed(f: Field)
    ensures f in FIELDS
  {
    assert FIELDS[0] == ProjectId && FIELDS[1] == NodeId && FIELDS[2] == ConversationId && FIELDS[3] == MessageId;
    assert FIELDS[4] == BatchIndex && FIELDS[5] == BatchCount && FIELDS[6] == RetryOf && FIELDS[7] == AttemptGroupId;
  }

  /** `context` is the merge as far as the fields `seen` go, and they do not clash. */
  ghost predicate MergedUpTo(context: map<Field, Id>, mine: map<Field, Id>, theirs: map<Field, Id>, seen: seq<Field>) {
    && (forall f :: f in seen && f in mine && f in theirs ==> mine[f] == theirs[f])
    && (forall f :: f in context <==> f in mine || (f in theirs && f in seen))
    && (forall f :: f in context ==> context[f] == if f in mine then mine[f] else theirs[f])
  }

  lemma MergesField(context: map<Field, Id>, mine: map<Field, Id>, theirs: map<Field, Id>, seen: seq<Field>, f: Field)
    requires MergedUpTo(context, mine, theirs, seen)
    requires f in theirs && f in context ==> context[f] == theirs[f]
    ensures MergedUpTo(if f in theirs then context[f := theirs[f]] else context, mine, theirs, seen + [f])
  {
  }

  lemma MergedAll(context: map<Field, Id>, mine: map<Field, Id>, theirs: map<Field, Id>)
    requires MergedUpTo(context, mine, theirs, FIELDS)
    ensures !Clashes(mine, theirs) && context == mine + theirs
  {
    forall f: Field ensures f in FIELDS {
      FieldIsListed(f);
    }
  }

  /** The source's merge: walk the known fields, give up on the first clash. */
  method MergeFields(mine: map<Field, Id>, theirs: map<Field, Id>) returns (merged: Option<map<Field, Id>>)
    ensures merged == if Clashes(mine, theirs) then None else Some(mine + theirs)
  {
    var context := mine;
    for i := 0 to |FIELDS|
      invariant MergedUpTo(context, mine, theirs, FIELDS[..i])
    {
      var f := FIELDS[i];
      assert FIELDS[..i + 1] == FIELDS[..i] + [f];
      if f in theirs && f in context && context[f] != theirs[f] { return None; }
      MergesField(context, mine, theirs, FIELDS[..i], f);
      if f in theirs { context := context[f := theirs[f]]; }
    }
    assert FIELDS[..|FIELDS|] == FIELDS;
    MergedAll(context, mine, theirs);
    return Some(context);
  }

  // ---- Properties of the reducer -----------------------------------------------------------

  /** A task is terminal exactly when it has an outcome. */
  predicate WellFormed(s: TaskState) {
    s.lifecycle == Terminal <==> s.outcome.Some?
  }

  /** Whatever the event: no step back, a decided outcome stays decided, outputs are never
      touched, a bound account is never rebound, and known context fields keep their values. */
  lemma ReduceIsMonotone(s: TaskState, e: Event)
    requires WellFormed(s) && Reduce(s, e).Ok?
    ensures
      var t := Reduce(s, e).value;
      && WellFormed(t)
      && Rank(s.lifecycle) <= Rank(t.lifecycle)
      && (s.lifecycle == Terminal ==> t.outcome == s.outcome)
      && t.outputs == s.outputs
      && (t.result == s.result || (s.result == NotAvailable && t.result == PendingMaterialization && t.outcome == Some(Success)))
      && (s.account.Some? ==> t.account == s.account)
      && (s.context.Scoped? <==> t.context.Scoped?)
      && (s.context.Scoped? ==> forall f :: f in s.context.fields ==>
            f in t.context.fields && t.context.fields[f] == s.context.fields[f])
  {
    match e
    case BindContext(account, fields) =>
      if s.context.Scoped? && !Clashes(s.context.fields, fields) {
        forall f | f in s.context.fields
          ensures f in s.context.fields + fields && (s.context.fields + fields)[f] == s.context.fields[f]
        {
          assert f in fields ==> f in s.context.fields.Keys * fields.Keys;
        }
      }
    case _ =>
  }

  /** Which transitions are taken: those along the lifecycle, with an outcome exactly at its end.
      What is being submitted can only be rejected, and an uncertain submission has to be found before
      it can end. A repeated transition must repeat the outcome. */
  lemma TransitionsExactly(s: TaskState, to: Lifecycle, outcome: Option<Outcome>)
    ensures TransitionLifecycle(s, to, outcome).Ok? <==>
      && (outcome.Some? <==> to == Terminal)
      && (|| (to == s.lifecycle && (to == Terminal ==> outcome == s.outcome))
          || (s.lifecycle == QueuedLocal && to == Submitting)
          || (s.lifecycle == Submitting && (to == ProviderAccepted || to == SubmissionUncertain))
          || (s.lifecycle == Submitting && outcome == Some(Rejection))
          || (s.lifecycle == SubmissionUncertain && to == ProviderAccepted)
          || (s.lifecycle == ProviderAccepted && (to == Running || to == Terminal))
          || (s.lifecycle == Running && to == Terminal))
  {
  }

  /** A transition that is taken is on record: the lifecycle and the outcome are the ones asked for, a
      success without a result asks for one, an uncertain submission is marked so and a found one is
      marked well. */
  lemma TransitionIsTaken(s: TaskState, to: Lifecycle, outcome: Option<Outcome>)
    requires TransitionLifecycle(s, to, outcome).Ok? && WellFormed(s)
    ensures
      var t := TransitionLifecycle(s, to, outcome).value;
      && t.lifecycle == to && t.outcome == outcome
      && t == s.(lifecycle := to, outcome := outcome, sync := t.sync, lastSyncError := t.lastSyncError, result := t.result)
      && t.result == (if s.lifecycle != Terminal && outcome == Some(Success) && s.result == NotAvailable
                      then PendingMaterialization else s.result)
      && (if to != s.lifecycle && to == SubmissionUncertain then t.sync == SyncUncertain && t.lastSyncError == s.lastSyncError
          else if s.lifecycle == SubmissionUncertain && to == ProviderAccepted then t.sync == SyncOk && t.lastSyncError.None?
          else t.sync == s.sync && t.lastSyncError == s.lastSyncError)
  {
  }

  /** An observation of another account only marks the conflict. Any other one is on record, binds
      the account if none was bound, clears the last error, and moves an unfinished task as far as the
      provider says: to the end, to running, or to accepted; it never moves a finished one. */
  lemma ObservationIsRecorded(s: TaskState, o: Observation)
    requires ApplyObservation(s, o).Ok?
    ensures
      var t := ApplyObservation(s, o).value;
      if s.account.Some? && o.account.Some? && s.account != o.account then t == s.(sync := SyncConflict)
      else
        && t == s.(lifecycle := t.lifecycle, outcome := t.outcome, sync := t.sync, result := t.result, account := t.account,
                   observation := Some(o), lastSyncError := None)
        && (s.account.Some? ==> t.account == s.account) && (s.account.None? ==> t.account == o.account)
        && (s.lifecycle == Terminal ==> t.lifecycle == Terminal && t.outcome == s.outcome && t.result == s.result)
        && (s.lifecycle != Terminal ==>
              match o.status
              case StatusCompleted =>
                && t.lifecycle == Terminal && t.outcome == Some(Success)
                && t.result == (if s.result == NotAvailable then PendingMaterialization else s.result)
              case StatusFailed => t.lifecycle == Terminal && t.outcome == Some(FailureOrCancellation) && t.result == s.result
              case StatusCancelled => t.lifecycle == Terminal && t.outcome == Some(Cancellation) && t.result == s.result
              case StatusProcessing => t.lifecycle == Running && t.result == s.result
              case StatusPending =>
                t.lifecycle == (if s.lifecycle == Running then Running else ProviderAccepted) && t.result == s.result)
        && (t.sync == SyncConflict <==>
              s.sync == SyncConflict
              || (s.lifecycle == Terminal && OutcomeOf(o.status).Some? && OutcomeOf(o.status) != s.outcome))
        && (t.sync != SyncConflict ==> t.sync == SyncOk)
  {
  }

  /** Losing contact is on record with its reason: a problem of the account waits for the user, every
      other one for the next try; nothing else changes. A code that is not safe to store is refused. */
  lemma SyncFailureIsRecorded(s: TaskState, kind: SyncErrorKind, code: ErrorCode)
    ensures
      var t := Reduce(s, SyncFailed(kind, code));
      if SafeErrorCode(code) then
        && t.Ok? && t.value == s.(sync := t.value.sync, lastSyncError := Some(code))
        && (t.value.sync == SyncBlockedAccount <==> kind == AccountError)
        && (t.value.sync == SyncRetryWait <==>
              kind == QueryError || kind == TransportError || kind == ParseError || kind == LockError || kind == LoginError)
      else t == Err(TransitionError)
  {
  }

  /** Regained contact clears the error, unless there is a conflict to resolve. */
  lemma RecoveryIsRecorded(s: TaskState)
    ensures
      var t := Reduce(s, SyncRecovered);
      && t.Ok?
      && (s.sync == SyncConflict ==> t.value == s)
      && (s.sync != SyncConflict ==> t.value == s.(sync := SyncOk, lastSyncError := None))
  {
  }

  /** Binding adds what is new and contradicts nothing: an account or a field that disagrees only
      marks the conflict, and a task from before contexts is left alone. */
  lemma ContextIsBound(s: TaskState, account: Option<Id>, fields: map<Field, Id>)
    ensures
      var t := Reduce(s, BindContext(account, fields));
      && t.Ok?
      && if s.context.LegacyUnscoped? then t.value == s
         else if (exists f :: f in fields && f in s.context.fields && fields[f] != s.context.fields[f])
                 || (account.Some? && s.account.Some? && account != s.account) then
           t.value == s.(sync := SyncConflict)
         else
           && t.value == s.(context := t.value.context, account := t.value.account)
           && t.value.account == (if s.account.Some? then s.account else account)
           && t.value.context.Scoped?
           && (forall f :: f in t.value.context.fields <==> f in s.context.fields || f in fields)
           && (forall f :: f in fields ==> f in t.value.context.fields && t.value.context.fields[f] == fields[f])
           && (forall f :: f in s.context.fields ==>
                 f in t.value.context.fields && t.value.context.fields[f] == s.context.fields[f])
  {
    if s.context.Scoped? {
      assert Clashes(s.context.fields, fields) <==>
        exists f :: f in fields && f in s.context.fields && fields[f] != s.context.fields[f] by {
        if f :| f in fields && f in s.context.fields && fields[f] != s.context.fields[f] {
          assert f in s.context.fields.Keys * fields.Keys;
        }
      }
      forall f | f in s.context.fields && f in fields && !Clashes(s.context.fields, fields)
        ensures s.context.fields[f] == fields[f]
      {
        assert f in s.context.fields.Keys * fields.Keys;
      }
    }
  }

  /** Exactly which events end a conflict: a sync failure overwrites it, and so do entering and
      leaving the uncertain submission by an explicit transition. */
  lemma ConflictEndsExactly(s: TaskState, e: Event)
    requires s.sync == SyncConflict && Reduce(s, e).Ok?
    ensures Reduce(s, e).value.sync != SyncConflict <==>
      || e.SyncFailed?
      || (e.Transition? && e.lifecycle != s.lifecycle && e.lifecycle == SubmissionUncertain)
      || (e.Transition? && s.lifecycle == SubmissionUncertain && e.lifecycle == ProviderAccepted)
  {
  }

  /** Observations applied one after the other. */
  function Fold(s: TaskState, observations: seq<Observation>): Result<TaskState, TransitionError>
    decreases |observations|
  {
    if observations == [] then
      Ok(s)
    else
      var next := ApplyObservation(s, observations[0]);
      if next.Err? then next else Fold(next.value, observations[1..])
  }

  /** The outcome of the first final observation. */
  function FirstOutcome(observations: seq<Observation>): Option<Outcome>
    decreases |observations|
  {
    if observations == [] then None
    else if OutcomeOf(observations[0].status).Some? then OutcomeOf(observations[0].status)
    else FirstOutcome(observations[1..])
  }

  /** Some final observation says something other than `outcome`. */
  ghost predicate Contradicted(observations: seq<Observation>, outcome: Outcome) {
    exists o :: o in observations && OutcomeOf(o.status).Some? && OutcomeOf(o.status) != Some(outcome)
  }

  /** No two of the accounts involved differ. */
  ghost predicate OneAccount(account: Option<Id>, observations: seq<Observation>, owner: Id) {
    && (account.Some? ==> account == Some(owner))
    && (forall o :: o in observations ==> ValidObservation(o) && (o.account.Some? ==> o.account == Some(owner)))
  }

  /** After the outcome is known, the rest can only confirm or contradict it. */
  lemma {:induction false} FoldAfterOutcome(s: TaskState, observations: seq<Observation>, owner: Id)
    requires s.lifecycle == Terminal && s.outcome.Some? && OneAccount(s.account, observations, owner)
    ensures
      var r := Fold(s, observations);
      && r.Ok?
      && r.value.lifecycle == Terminal
      && r.value.outcome == s.outcome
      && (r.value.sync == SyncConflict <==>
          s.sync == SyncConflict || Contradicted(observations, s.outcome.value))
    decreases |observations|
  {
    if observations != [] {
      var o, rest := observations[0], observations[1..];
      assert observations == [o] + rest;
      var next := ApplyObservation(s, o).value;
      FoldAfterOutcome(next, rest, owner);
      assert forall p :: p in observations <==> p == o || p in rest;
    }
  }

  /** Fold law. Whatever the order of the observations of one account, the task ends with the
      outcome of the first final one, and in conflict exactly when a final one disagrees. */
  lemma {:induction false} FoldLaw(s: TaskState, observations: seq<Observation>, owner: Id)
    requires WellFormed(s) && s.lifecycle != Terminal && s.sync != SyncConflict
    requires OneAccount(s.account, observations, owner)
    ensures
      var r, first := Fold(s, observations), FirstOutcome(observations);
      && r.Ok?
      && WellFormed(r.value)
      && r.value.outcome == first
      && (r.value.sync == SyncConflict <==> first.Some? && Contradicted(observations, first.value))
    decreases |observations|
  {
    if observations != [] {
      var o, rest := observations[0], observations[1..];
      assert observations == [o] + rest;
      var next := ApplyObservation(s, o).value;
      if OutcomeOf(o.status).Some? {
        FoldAfterOutcome(next, rest, owner);
      } else {
        FoldLaw(next, rest, owner);
      }
      assert forall p :: p in observations <==> p == o || p in rest;
    }
  }

  /** Without a shared account the law fails: an observation of a foreign account puts the task
      in conflict although no final observation disagrees. */
  lemma FoldNeedsOneAccount()
    ensures
      var s := TaskState(ProviderAccepted, None, SyncOk, NotAvailable, [], Some(1), LegacyUnscoped, None, None);
      var o := Observation(StatusPending, 0, Some(2), None);
      Fold(s, [o]).Ok? && Fold(s, [o]).value.sync == SyncConflict && FirstOutcome([o]).None?
  {
    var s := TaskState(ProviderAccepted, None, SyncOk, NotAvailable, [], Some(1), LegacyUnscoped, None, None);
    var o := Observation(StatusPending, 0, Some(2), None);
    assert Fold(s, [o]) == Fold(ApplyObservation(s, o).value, []);
  }
}
