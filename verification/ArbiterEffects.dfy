/** What each section of the arbiter leaves in the file and what that means for the sections after
    it: how long a lease lasts, when the lock is free again, and whom a session epoch names. */
module ArbiterEffects {
  import opened Prelude
  import opened Arbiter
  import opened ArbiterRuns

  // ---- The lock ------------------------------------------------------------------------------------------

  /** Only the listed parts of the state may differ. */
  predicate SameCounters(s: State, t: State) {
    t.revision == s.revision + 1 && t.nextTicket == s.nextTicket && t.nextFence == s.nextFence
  }

  /** Whoever joins is the last in the queue, under a ticket nobody else has, until its deadline. */
  lemma JoinerIsLast(s: State, requestId: Id, deadline: int, now: int)
    requires Enqueue(s, requestId, deadline, now).reply.Ok?
    ensures
      var o := Enqueue(s, requestId, deadline, now);
      && o.reply == Ok(Ticket(s.nextTicket))
      && o.state.queue == Unexpired(s.queue, now) + [Entry(requestId, s.nextTicket, deadline)]
      && o.state.nextTicket == s.nextTicket + 1 && o.state.nextFence == s.nextFence
      && o.state.session == s.session
      && (o.state.active.Some? <==> Live(s.active, now)) && (o.state.active.Some? ==> o.state.active == s.active)
  {
  }

  /** A lease is granted until the end of its time: from then on the holder passes its checks,
      with the session it was told, exactly as long as that time has not come. */
  lemma GrantLastsExactly(
    s: State, requestId: Id, ticket: int, leaseMs: nat, expected: Option<Session>, now: int, later: int)
    requires TryGrant(s, requestId, ticket, leaseMs, expected, now).reply.Ok?
    requires TryGrant(s, requestId, ticket, leaseMs, expected, now).reply.value.Granted?
    ensures
      var o := TryGrant(s, requestId, ticket, leaseMs, expected, now);
      && o.reply == Ok(Granted(s.nextFence, s.session))
      && o.state.session == s.session && o.state.nextTicket == s.nextTicket && o.state.nextFence == s.nextFence + 1
      && (forall e :: e in o.state.queue <==> e in s.queue && e.expiresAt > now && e.requestId != requestId)
      && (AssertCurrent(o.state, requestId, s.nextFence, Some(s.session), later).Ok? <==> later < now + leaseMs)
  {
  }

  /** A poll that is told to wait only tidies up. */
  lemma WaitingTidiesUp(s: State, requestId: Id, ticket: int, leaseMs: nat, expected: Option<Session>, now: int)
    requires TryGrant(s, requestId, ticket, leaseMs, expected, now).reply == Ok(Waiting)
    ensures
      var t := TryGrant(s, requestId, ticket, leaseMs, expected, now).state;
      && SameCounters(s, t) && t.session == s.session
      && (forall e :: e in t.queue <==> e in s.queue && e.expiresAt > now)
      && t.active == (if Live(s.active, now) then s.active else None)
  {
  }

  /** A heartbeat extends the holder's lease to the end of a new term, whether or not the old one
      had run out, and touches nothing else. */
  lemma HeartbeatLastsExactly(
    s: State, requestId: Id, fence: int, leaseMs: nat, expected: Option<Session>, now: int, later: int)
    requires Refresh(s, requestId, fence, leaseMs, expected, now).reply.Ok?
    ensures
      var t := Refresh(s, requestId, fence, leaseMs, expected, now).state;
      && SameCounters(s, t) && t.session == s.session && t.queue == s.queue
      && (AssertCurrent(t, requestId, fence, expected, later).Ok? <==> later < now + leaseMs)
  {
  }

  /** Whoever does not hold the very lease, under that request and fence, is refused by its heartbeat
      and its check, and its release takes nothing from the holder. */
  lemma ForeignHeartbeatIsRefused(
    s: State, requestId: Id, fence: int, leaseMs: nat, expected: Option<Session>, now: int)
    requires s.active.Some? ==> s.active.value.requestId != requestId || s.active.value.fence != fence
    ensures Refresh(s, requestId, fence, leaseMs, expected, now) == Outcome(s, Err(Fenced))
    ensures AssertCurrent(s, requestId, fence, expected, now) == Err(Fenced)
    ensures Release(s, requestId, fence).state.active == s.active
  {
  }

  /** After the holder's release nobody holds the lock; anybody else's release changes nothing. */
  lemma ReleaseFreesTheLock(s: State, requestId: Id, fence: int)
    requires Release(s, requestId, fence).reply.Ok?
    ensures
      var t := Release(s, requestId, fence).state;
      && SameCounters(s, t) && t.session == s.session && t.queue == s.queue
      && (if Holds(s, requestId, fence) then t.active.None? else t.active == s.active)
  {
  }

  /** A failed acquisition leaves no entry behind and keeps everybody else's. */
  lemma AbandonForgetsOne(s: State, requestId: Id)
    requires RemoveQueued(s, requestId).reply.Ok?
    ensures
      var t := RemoveQueued(s, requestId).state;
      && SameCounters(s, t) && t.session == s.session && t.active == s.active
      && (forall e :: e in t.queue <==> e in s.queue && e.requestId != requestId)
  {
  }

  /** The next in line gets a released lock: with the holder gone, an unexpired request at the head
      of a reachable queue is granted at its next poll. */
  lemma {:induction false} ReleasedLockGoesToTheHead(start: int, actions: seq<Action>, holder: Id, fence: int, a: Action)
    requires
      var w := Run(Init(start), actions);
      && Holds(w.state, holder, fence) && ArbiterRuns.Room(w.state) && w.state.revision + 1 < MAX_SAFE_INTEGER
      && a.DoTryGrant? && Expected(w.state, a.expected)
      && var queue := Unexpired(w.state.queue, w.now);
      queue != [] && queue[0].requestId == a.requestId && queue[0].ticket == a.ticket
    ensures
      var v := Run(Init(start), actions + [DoRelease(holder, fence)]);
      && Section(v, a).reply == Ok(Granted(v.state.nextFence, v.state.session))
  {
    RunMore(Init(start), actions, DoRelease(holder, fence));
    WritesAreValid(start, actions, DoRelease(holder, fence));
    GrantedExactlyAtTheHead(start, actions + [DoRelease(holder, fence)], a);
  }

  lemma {:induction false} RunMore(w: World, actions: seq<Action>, a: Action)
    ensures Run(w, actions + [a]) == Step(Run(w, actions), a)
    decreases |actions|
  {
    if actions == [] {
      assert [] + [a] == [a] && [a][1..] == [];
    } else {
      assert (actions + [a])[1..] == actions[1..] + [a];
      RunMore(Step(w, actions[0]), actions[1..], a);
    }
  }

  // ---- The session ------------------------------------------------------------------------------------------

  /** A commit binds the account it is given and answers with it; the epoch moves on exactly when
      the account is another one, and the lock is left alone. */
  lemma CommitBindsTheAccount(s: State, fence: int, binding: Option<Id>, now: int)
    requires CommitSession(s, fence, binding, now).reply.Ok?
    ensures
      var t := CommitSession(s, fence, binding, now).state;
      && t.session.binding == binding
      && t.session.epoch == s.session.epoch + (if s.session.binding == binding then 0 else 1)
      && CommitSession(s, fence, binding, now).reply == Ok(Snapshot(t.session))
      && SameCounters(s, t) && t.queue == s.queue && t.active == s.active
  {
  }

  /** An advance forgets the account under the next epoch and leaves the lock alone. */
  lemma AdvanceForgetsTheAccount(s: State, fence: int, now: int)
    requires AdvanceSession(s, fence, now).reply.Ok?
    ensures
      var t := AdvanceSession(s, fence, now).state;
      && t.session == Session(s.session.epoch + 1, None)
      && AdvanceSession(s, fence, now).reply == Ok(Snapshot(t.session))
      && SameCounters(s, t) && t.queue == s.queue && t.active == s.active
  {
  }

  /** With room in the counters both are refused exactly without the live lease of that fence. */
  lemma SessionSectionsExactly(s: State, fence: int, binding: Option<Id>, now: int)
    requires ValidState(s) && s.revision < MAX_SAFE_INTEGER && s.session.epoch < MAX_SAFE_INTEGER
    ensures CommitSession(s, fence, binding, now).reply.Ok? <==> Live(s.active, now) && s.active.value.fence == fence
    ensures AdvanceSession(s, fence, now).reply.Ok? <==> Live(s.active, now) && s.active.value.fence == fence
    ensures CommitSession(s, fence, binding, now).reply.Err? ==> CommitSession(s, fence, binding, now).state == s
    ensures AdvanceSession(s, fence, now).reply.Err? ==> AdvanceSession(s, fence, now).state == s
  {
  }

  /** The action committed this session when it was taken. */
  predicate Committed(w: World, a: Action, session: Session) {
    a.DoCommitSession? && a.binding == session.binding && Section(w, a).reply == Ok(Snapshot(session))
  }

  /** Committing once decides for ever: whenever a later state of the run has the epoch of a
      commit, its account is the one that commit gave. */
  lemma {:induction false} CommittedAccountStays(start: int, before: seq<Action>, a: Action, after: seq<Action>)
    requires a.DoCommitSession? && Section(Run(Init(start), before), a).reply.Ok?
    ensures
      var v := Step(Run(Init(start), before), a);
      var u := Run(v, after);
      && v.state.session.binding == a.binding
      && v.state.session.epoch <= u.state.session.epoch
      && (u.state.session.epoch == v.state.session.epoch ==> u.state.session.binding == a.binding)
  {
    var w := Run(Init(start), before);
    CommitBindsTheAccount(w.state, a.fence, a.binding, w.now);
    InitInv(start);
    RunKeepsInv(Init(start), before);
    StepKeepsInv(w, a);
    RunFollows(Step(w, a), after);
  }

  /** Nobody is bound by accident: the account of a reachable state was given by a commit of the
      run, in the very epoch the state is in. */
  lemma {:induction false} AccountCameFromCommit(start: int, actions: seq<Action>)
    requires Run(Init(start), actions).state.session.binding.Some?
    ensures exists k ::
      0 <= k < |actions| && Committed(Run(Init(start), actions[..k]), actions[k], Run(Init(start), actions).state.session)
    decreases |actions|
  {
    if actions != [] {
      var front, a := actions[..|actions| - 1], actions[|actions| - 1];
      var w := Run(Init(start), front);
      assert actions == front + [a];
      RunMore(Init(start), front, a);
      SessionMoves(w, a);
      if Step(w, a).state.session == w.state.session {
        AccountCameFromCommit(start, front);
        var k :| 0 <= k < |front| && Committed(Run(Init(start), front[..k]), front[k], w.state.session);
        assert actions[..k] == front[..k] && actions[k] == front[k];
      } else {
        assert actions[..|front|] == front && actions[|front|] == a;
      }
    }
  }

  lemma SessionMoves(w: World, a: Action)
    ensures
      var session := Step(w, a).state.session;
      session == w.state.session || session.binding.None? || Committed(w, a, session)
  {
  }
}
