/** Whole runs of the arbiter: any number of processes apply the critical sections of module
    Arbiter in any order, with any arguments, at any instants of a nondecreasing clock. */
module ArbiterRuns {
  import opened Prelude
  import opened Arbiter

  datatype Grant = Grant(requestId: Id, ticket: int, fence: int)

  /** The state file, the clock, and the history of the run: the request ids drawn so far,
      every lease granted, and the session after every step. */
  datatype World = World(state: State, now: int, drawn: set<Id>, grants: seq<Grant>, sessions: seq<Session>)

  datatype Action =
    | Tick(elapsed: nat)
    | DoEnqueue(requestId: Id, deadline: int)
    | DoTryGrant(requestId: Id, ticket: int, leaseMs: nat, expected: Option<Session>)
    | DoRemoveQueued(requestId: Id)
    | DoRefresh(requestId: Id, fence: int, leaseMs: nat, expected: Option<Session>)
    | DoRelease(requestId: Id, fence: int)
    | DoCommitSession(fence: int, binding: Option<Id>)
    | DoAdvanceSession(fence: int)

  function Init(now: int): World {
    World(EMPTY, now, {}, [], [EMPTY.session])
  }

  function Section(w: World, a: Action): Outcome
    requires !a.Tick?
  {
    match a
    case DoEnqueue(r, d) => Enqueue(w.state, r, d, w.now)
    case DoTryGrant(r, t, l, e) => TryGrant(w.state, r, t, l, e, w.now)
    case DoRemoveQueued(r) => RemoveQueued(w.state, r)
    case DoRefresh(r, f, l, e) => Refresh(w.state, r, f, l, e, w.now)
    case DoRelease(r, f) => Release(w.state, r, f)
    case DoCommitSession(f, b) => CommitSession(w.state, f, b, w.now)
    case DoAdvanceSession(f) => AdvanceSession(w.state, f, w.now)
  }

  /** One step. Request ids are fresh uuids: joining with a used one is not a step. */
  function Step(w: World, a: Action): World {
    if a.Tick? then
      w.(now := w.now + a.elapsed)
    else if a.DoEnqueue? && a.requestId in w.drawn then
      w
    else
      var o := Section(w, a);
      World(o.state, w.now,
            if a.DoEnqueue? then w.drawn + {a.requestId} else w.drawn,
            if a.DoTryGrant? && o.reply.Ok? && o.reply.value.Granted?
            then w.grants + [Grant(a.requestId, a.ticket, o.reply.value.fence)] else w.grants,
            w.sessions + [o.state.session])
  }

  function Run(w: World, actions: seq<Action>): World
    decreases |actions|
  {
    if actions == [] then w else Run(Step(w, actions[0]), actions[1..])
  }

  /** The queue is strictly sorted by ticket, and no request waits twice. */
  ghost predicate Sorted(queue: seq<Entry>) {
    queue == [] ||
    var front, last := queue[..|queue| - 1], queue[|queue| - 1];
    Sorted(front) && forall e :: e in front ==> e.ticket < last.ticket && e.requestId != last.requestId
  }

  ghost predicate QueueInv(queue: seq<Entry>, nextTicket: int, drawn: set<Id>) {
    && Sorted(queue)
    && (forall e :: e in queue ==> 1 <= e.ticket < nextTicket && e.requestId in drawn)
  }

  /** Fences count the grants and tickets are granted in increasing order. */
  ghost predicate InOrder(grants: seq<Grant>) {
    grants == [] ||
    var front, last := grants[..|grants| - 1], grants[|grants| - 1];
    InOrder(front) && last.fence == |grants| && forall g :: g in front ==> g.ticket < last.ticket
  }

  ghost predicate GrantInv(grants: seq<Grant>, nextTicket: int, nextFence: int) {
    InOrder(grants) && |grants| == nextFence - 1 && forall g :: g in grants ==> g.ticket < nextTicket
  }

  /** Everybody still waiting drew a later ticket than everybody served. */
  ghost predicate ServedFirst(grants: seq<Grant>, queue: seq<Entry>) {
    forall g, e :: g in grants && e in queue ==> g.ticket < e.ticket
  }

  /** An active lease is the newest grant. */
  ghost predicate LeaseInv(active: Option<Lease>, grants: seq<Grant>, nextFence: int) {
    active.Some? ==>
      && grants != []
      && active.value.requestId == grants[|grants| - 1].requestId
      && active.value.fence == grants[|grants| - 1].fence == nextFence - 1
  }

  /** Epochs never go back, and one epoch names one account. */
  ghost predicate OneAccountPerEpoch(sessions: seq<Session>) {
    sessions == [] ||
    var front, last := sessions[..|sessions| - 1], sessions[|sessions| - 1];
    OneAccountPerEpoch(front) && forall t :: t in front ==> t == last || t.epoch < last.epoch
  }

  ghost predicate SessionInv(sessions: seq<Session>, session: Session) {
    sessions != [] && sessions[|sessions| - 1] == session && OneAccountPerEpoch(sessions)
  }

  ghost predicate Inv(w: World) {
    && ValidState(w.state)
    && QueueInv(w.state.queue, w.state.nextTicket, w.drawn)
    && GrantInv(w.grants, w.state.nextTicket, w.state.nextFence)
    && ServedFirst(w.grants, w.state.queue)
    && LeaseInv(w.state.active, w.grants, w.state.nextFence)
    && SessionInv(w.sessions, w.state.session)
  }

  // ---- The queue ------------------------------------------------------------------------

  lemma {:induction false} FilterKeepsSorted(queue: seq<Entry>, keep: Entry -> bool)
    requires Sorted(queue)
    ensures Sorted(Filter(queue, keep))
  {
    if queue != [] {
      var front, last := queue[..|queue| - 1], queue[|queue| - 1];
      FilterKeepsSorted(front, keep);
      assert keep(last) ==> Filter(queue, keep)[..|Filter(front, keep)|] == Filter(front, keep);
    }
  }

  /** The head of a sorted queue has the smallest ticket, and no other entry is its own. */
  lemma {:induction false} HeadIsLeast(queue: seq<Entry>, e: Entry)
    requires Sorted(queue) && e in queue
    ensures e == queue[0] || (queue[0].ticket < e.ticket && queue[0].requestId != e.requestId)
  {
    var front, last := queue[..|queue| - 1], queue[|queue| - 1];
    if front != [] {
      assert front[0] == queue[0] && queue[0] in front;
      if e in front {
        HeadIsLeast(front, e);
      } else {
        assert e == last;
      }
    }
  }

  /** On a ticket-sorted queue the scan for the smallest ticket returns the head. */
  lemma {:induction false} FirstIsHead(queue: seq<Entry>)
    requires Sorted(queue) && queue != []
    ensures First(queue) == Some(queue[0])
  {
    if |queue| > 1 {
      assert queue[..|queue| - 1][0] in queue[..|queue| - 1];
      FirstIsHead(queue[..|queue| - 1]);
    }
  }

  lemma UnexpiredKeepsQueue(queue: seq<Entry>, now: int, nextTicket: int, drawn: set<Id>)
    requires QueueInv(queue, nextTicket, drawn)
    ensures QueueInv(Unexpired(queue, now), nextTicket, drawn)
  {
    FilterKeepsSorted(queue, (e: Entry) => e.expiresAt > now);
  }

  lemma WithoutKeepsQueue(queue: seq<Entry>, requestId: Id, nextTicket: int, drawn: set<Id>)
    requires QueueInv(queue, nextTicket, drawn)
    ensures QueueInv(Without(queue, requestId), nextTicket, drawn)
  {
    FilterKeepsSorted(queue, (e: Entry) => e.requestId != requestId);
  }

  lemma JoinKeepsQueue(queue: seq<Entry>, requestId: Id, deadline: int, nextTicket: int, drawn: set<Id>)
    requires QueueInv(queue, nextTicket, drawn) && requestId !in drawn && 1 <= nextTicket
    ensures QueueInv(queue + [Entry(requestId, nextTicket, deadline)], nextTicket + 1, drawn + {requestId})
  {
    var joined := queue + [Entry(requestId, nextTicket, deadline)];
    assert joined[..|joined| - 1] == queue;
  }

  /** On a sorted queue the poll that finds its own entry first has found the head. */
  lemma {:induction false} PollFindsHead(queue: seq<Entry>, requestId: Id, ticket: int)
    requires Sorted(queue)
    ensures (Queued(queue, requestId, ticket) && First(queue).Some? && First(queue).value.requestId == requestId)
      <==> (queue != [] && queue[0].requestId == requestId && queue[0].ticket == ticket)
  {
    if queue != [] {
      FirstIsHead(queue);
      assert queue[0] in queue;
      forall e | e in queue ensures e == queue[0] || queue[0].requestId != e.requestId {
        HeadIsLeast(queue, e);
      }
    }
  }

  /** Serving the head: it leaves, every other entry stays, and all of those are later. */
  lemma ServingTheHead(queue: seq<Entry>, nextTicket: int, drawn: set<Id>)
    requires QueueInv(queue, nextTicket, drawn) && queue != []
    ensures
      var rest := Without(queue, queue[0].requestId);
      && QueueInv(rest, nextTicket, drawn)
      && (forall e :: e in rest ==> e in queue && queue[0].ticket < e.ticket)
  {
    WithoutKeepsQueue(queue, queue[0].requestId, nextTicket, drawn);
    forall e | e in Without(queue, queue[0].requestId) ensures queue[0].ticket < e.ticket {
      HeadIsLeast(queue, e);
    }
  }

  // ---- The invariant --------------------------------------------------------------------

  lemma InitInv(now: int)
    ensures Inv(Init(now))
  {
  }

  lemma SessionsExtend(sessions: seq<Session>, session: Session, next: Session)
    requires SessionInv(sessions, session)
    requires next == session || session.epoch < next.epoch
    ensures SessionInv(sessions + [next], next)
  {
    assert (sessions + [next])[..|sessions|] == sessions;
    forall t | t in sessions ensures t == next || t.epoch < next.epoch {
      var front := sessions[..|sessions| - 1];
      assert t in front || t == session;
    }
  }

  lemma GrantsExtend(grants: seq<Grant>, nextTicket: int, nextFence: int, g: Grant)
    requires GrantInv(grants, nextTicket, nextFence)
    requires g.fence == nextFence && g.ticket < nextTicket
    requires forall h :: h in grants ==> h.ticket < g.ticket
    ensures GrantInv(grants + [g], nextTicket, nextFence + 1)
  {
    assert (grants + [g])[..|grants|] == grants;
  }

  lemma {:induction false} GrantsAt(grants: seq<Grant>, i: nat, j: nat)
    requires InOrder(grants) && i < |grants| && j < |grants|
    ensures grants[i].fence == i + 1
    ensures i < j ==> grants[i].ticket < grants[j].ticket
  {
    var front := grants[..|grants| - 1];
    if i < |front| && j < |front| {
      GrantsAt(front, i, j);
    } else if i < |front| {
      GrantsAt(front, i, i);
      assert front[i] in front;
    }
  }

  lemma {:induction false} SessionsAt(sessions: seq<Session>, i: nat, j: nat)
    requires OneAccountPerEpoch(sessions) && i <= j < |sessions|
    ensures sessions[i] == sessions[j] || sessions[i].epoch < sessions[j].epoch
  {
    var front := sessions[..|sessions| - 1];
    if j < |front| {
      SessionsAt(front, i, j);
    } else if i < |front| {
      assert front[i] in front;
    }
  }

  lemma JoinIsServedLater(grants: seq<Grant>, nextTicket: int, nextFence: int, queue: seq<Entry>, e: Entry)
    requires GrantInv(grants, nextTicket, nextFence) && ServedFirst(grants, queue) && e.ticket == nextTicket
    ensures ServedFirst(grants, queue + [e])
    ensures GrantInv(grants, nextTicket + 1, nextFence)
  {
  }

  /** Joining either leaves the file alone or appends one entry to the pruned queue. */
  lemma EnqueueShape(s: State, requestId: Id, deadline: int, now: int)
    requires ValidState(s)
    ensures
      var p, o := Prune(s, now), Enqueue(s, requestId, deadline, now);
      && ValidState(o.state)
      && (o.state == s || o.state == State(s.revision + 1, s.nextTicket + 1, s.nextFence, s.session,
                                           p.queue + [Entry(requestId, s.nextTicket, deadline)], p.active))
  {
  }

  lemma EnqueueKeepsInv(w: World, a: Action)
    requires Inv(w) && a.DoEnqueue? && a.requestId !in w.drawn
    ensures Inv(Step(w, a))
  {
    var s, drawn := w.state, w.drawn + {a.requestId};
    var queue := Unexpired(s.queue, w.now);
    var entry := Entry(a.requestId, s.nextTicket, a.deadline);
    EnqueueShape(s, a.requestId, a.deadline, w.now);
    assert QueueInv(s.queue, s.nextTicket, drawn);
    assert QueueInv(queue + [entry], s.nextTicket + 1, drawn) by {
      UnexpiredKeepsQueue(s.queue, w.now, s.nextTicket, w.drawn);
      JoinKeepsQueue(queue, a.requestId, a.deadline, s.nextTicket, w.drawn);
    }
    JoinIsServedLater(w.grants, s.nextTicket, s.nextFence, queue, entry);
    SessionsExtend(w.sessions, s.session, s.session);
  }

  lemma GrantServesFirst(grants: seq<Grant>, queue: seq<Entry>, rest: seq<Entry>, g: Grant)
    requires ServedFirst(grants, queue)
    requires forall e :: e in rest ==> e in queue && g.ticket < e.ticket
    ensures ServedFirst(grants + [g], rest)
  {
    assert forall h :: h in grants + [g] ==> h in grants || h == g;
  }

  /** A grant takes one entry out of the pruned queue and hands out the next fence. */
  lemma GrantShape(s: State, a: Action, now: int)
    requires a.DoTryGrant? && ValidState(s)
    requires
      var o := TryGrant(s, a.requestId, a.ticket, a.leaseMs, a.expected, now);
      o.reply.Ok? && o.reply.value.Granted?
    ensures
      var queue := Unexpired(s.queue, now);
      var o := TryGrant(s, a.requestId, a.ticket, a.leaseMs, a.expected, now);
      && Queued(queue, a.requestId, a.ticket)
      && First(queue).Some? && First(queue).value.requestId == a.requestId
      && o.reply.value.fence == s.nextFence
      && ValidState(o.state)
      && o.state == State(s.revision + 1, s.nextTicket, s.nextFence + 1, s.session, Without(queue, a.requestId),
                          Some(Lease(a.requestId, s.nextFence, now + a.leaseMs)))
  {
  }

  lemma GrantServesInOrder(w: World, a: Action)
    requires Inv(w) && a.DoTryGrant?
    requires Queued(Unexpired(w.state.queue, w.now), a.requestId, a.ticket)
    requires First(Unexpired(w.state.queue, w.now)).Some?
    requires First(Unexpired(w.state.queue, w.now)).value.requestId == a.requestId
    ensures
      var s, queue := w.state, Unexpired(w.state.queue, w.now);
      var grants := w.grants + [Grant(a.requestId, a.ticket, s.nextFence)];
      && QueueInv(Without(queue, a.requestId), s.nextTicket, w.drawn)
      && GrantInv(grants, s.nextTicket, s.nextFence + 1)
      && ServedFirst(grants, Without(queue, a.requestId))
  {
    var s, queue := w.state, Unexpired(w.state.queue, w.now);
    UnexpiredKeepsQueue(s.queue, w.now, s.nextTicket, w.drawn);
    PollFindsHead(queue, a.requestId, a.ticket);
    ServingTheHead(queue, s.nextTicket, w.drawn);
    assert queue[0] in queue;
    var g := Grant(a.requestId, a.ticket, s.nextFence);
    GrantsExtend(w.grants, s.nextTicket, s.nextFence, g);
    GrantServesFirst(w.grants, queue, Without(queue, a.requestId), g);
  }

  lemma GrantKeepsInv(w: World, a: Action)
    requires Inv(w) && a.DoTryGrant?
    requires Section(w, a).reply.Ok? && Section(w, a).reply.value.Granted?
    ensures Inv(Step(w, a))
  {
    GrantShape(w.state, a, w.now);
    GrantServesInOrder(w, a);
    SessionsExtend(w.sessions, w.state.session, w.state.session);
  }

  /** A poll that is not granted leaves the file alone or writes the pruned state. */
  lemma WaitShape(s: State, a: Action, now: int)
    requires a.DoTryGrant? && ValidState(s)
    requires var o := TryGrant(s, a.requestId, a.ticket, a.leaseMs, a.expected, now);
             !(o.reply.Ok? && o.reply.value.Granted?)
    ensures var o := TryGrant(s, a.requestId, a.ticket, a.leaseMs, a.expected, now);
            ValidState(o.state) && (o.state == s || o.state == Prune(s, now).(revision := s.revision + 1))
  {
  }

  lemma WaitKeepsInv(w: World, a: Action)
    requires Inv(w) && a.DoTryGrant?
    requires !(Section(w, a).reply.Ok? && Section(w, a).reply.value.Granted?)
    ensures Inv(Step(w, a))
  {
    var s := w.state;
    WaitShape(s, a, w.now);
    var v := Step(w, a);
    assert v.grants == w.grants && v.drawn == w.drawn && v.sessions == w.sessions + [s.session];
    UnexpiredKeepsQueue(s.queue, w.now, s.nextTicket, w.drawn);
    SessionsExtend(w.sessions, s.session, s.session);
  }

  lemma OtherKeepsInv(w: World, a: Action)
    requires Inv(w) && !a.DoEnqueue? && !a.DoTryGrant?
    ensures Inv(Step(w, a))
  {
    hide ValidState, GrantInv;
    if a.DoRemoveQueued? {
      WithoutKeepsQueue(w.state.queue, a.requestId, w.state.nextTicket, w.drawn);
    }
    if !a.Tick? {
      SessionsExtend(w.sessions, w.state.session, Section(w, a).state.session);
    }
  }

  /** The invariant is inductive. */
  lemma StepKeepsInv(w: World, a: Action)
    requires Inv(w)
    ensures Inv(Step(w, a))
  {
    if a.DoEnqueue? {
      if a.requestId !in w.drawn {
        EnqueueKeepsInv(w, a);
      }
    } else if a.DoTryGrant? {
      if Section(w, a).reply.Ok? && Section(w, a).reply.value.Granted? {
        GrantKeepsInv(w, a);
      } else {
        WaitKeepsInv(w, a);
      }
    } else {
      OtherKeepsInv(w, a);
    }
  }

  lemma {:induction false} RunKeepsInv(w: World, actions: seq<Action>)
    requires Inv(w)
    ensures Inv(Run(w, actions))
    decreases |actions|
  {
    if actions != [] {
      StepKeepsInv(w, actions[0]);
      RunKeepsInv(Step(w, actions[0]), actions[1..]);
    }
  }

  // ---- What one step may change ----------------------------------------------------------

  /** Histories only grow, fences and session epochs never go back, and the recovery gate
      accepts the new state against the old one. */
  ghost predicate Follows(w: World, v: World) {
    && w.grants <= v.grants
    && w.sessions <= v.sessions
    && w.now <= v.now
    && Gate(w.state, v.state)
    && w.state.nextFence <= v.state.nextFence
  }

  /** The recovery gate accepts every write against the state it replaced. */
  lemma SectionPassesGate(w: World, a: Action)
    requires !a.Tick?
    ensures Gate(w.state, Section(w, a).state)
    ensures w.state.nextFence <= Section(w, a).state.nextFence
  {
    match a
    case DoEnqueue(r, d) =>
    case DoTryGrant(r, t, l, e) =>
    case _ =>
  }

  lemma StepFollows(w: World, a: Action)
    ensures Follows(w, Step(w, a))
  {
    if !a.Tick? {
      SectionPassesGate(w, a);
    }
  }

  lemma FollowsTransitive(u: World, v: World, w: World)
    requires Follows(u, v) && Follows(v, w)
    ensures Follows(u, w)
  {
  }

  lemma {:induction false} RunFollows(w: World, actions: seq<Action>)
    requires Inv(w)
    ensures Inv(Run(w, actions)) && Follows(w, Run(w, actions))
    decreases |actions|
  {
    if actions != [] {
      var v := Step(w, actions[0]);
      StepKeepsInv(w, actions[0]);
      StepFollows(w, actions[0]);
      RunFollows(v, actions[1..]);
      FollowsTransitive(w, v, Run(w, actions));
    }
  }

  // ---- Theorems about whole runs ----------------------------------------------------------

  /** Some fenced operation of the holder of `fence` succeeds now: the check before and after a
      command, a change of the account binding, or a session advance. */
  predicate Passes(w: World, requestId: Id, fence: int, expected: Option<Session>, binding: Option<Id>) {
    || AssertCurrent(w.state, requestId, fence, expected, w.now).Ok?
    || CommitSession(w.state, fence, binding, w.now).reply.Ok?
    || AdvanceSession(w.state, fence, w.now).reply.Ok?
  }

  /** In every reachable state, whoever passes a fenced operation holds the greatest fence ever
      granted, although heartbeats may have revived its lease after the expiry. */
  lemma {:induction false} PassingHolderIsNewest(
    start: int, actions: seq<Action>, requestId: Id, fence: int, expected: Option<Session>, binding: Option<Id>)
    requires Passes(Run(Init(start), actions), requestId, fence, expected, binding)
    ensures
      var w := Run(Init(start), actions);
      && 1 <= fence == |w.grants| == w.state.nextFence - 1
      && (forall g :: g in w.grants ==> g.fence <= fence)
      && w.grants[fence - 1].fence == fence
  {
    InitInv(start);
    RunKeepsInv(Init(start), actions);
    var w := Run(Init(start), actions);
    forall i | 0 <= i < |w.grants| ensures w.grants[i].fence == i + 1 {
      GrantsAt(w.grants, i, i);
    }
  }

  /** Fencing over time: of two successful fenced operations the later one never has the
      smaller fence, and a lease followed by any further grant never passes again. */
  lemma {:induction false} FencingIsMonotone(
    start: int, before: seq<Action>, between: seq<Action>,
    r1: Id, f1: int, e1: Option<Session>, b1: Option<Id>, r2: Id, f2: int, e2: Option<Session>, b2: Option<Id>)
    requires Passes(Run(Init(start), before), r1, f1, e1, b1)
    requires Passes(Run(Run(Init(start), before), between), r2, f2, e2, b2)
    ensures f1 <= f2
    ensures |Run(Init(start), before).grants| < |Run(Run(Init(start), before), between).grants| ==> f1 < f2
  {
    InitInv(start);
    RunKeepsInv(Init(start), before);
    RunFollows(Run(Init(start), before), between);
  }

  /** Leases are granted in strictly increasing ticket order with strictly increasing fences. */
  lemma {:induction false} GrantsFollowTickets(start: int, actions: seq<Action>, i: nat, j: nat)
    requires i < j < |Run(Init(start), actions).grants|
    ensures
      var grants := Run(Init(start), actions).grants;
      grants[i].ticket < grants[j].ticket && grants[i].fence < grants[j].fence
  {
    InitInv(start);
    RunKeepsInv(Init(start), actions);
    GrantsAt(Run(Init(start), actions).grants, i, j);
    GrantsAt(Run(Init(start), actions).grants, j, j);
  }

  /** A session epoch names one account for ever: equal epochs anywhere in a run, equal bindings. */
  lemma {:induction false} EpochNamesOneAccount(start: int, actions: seq<Action>, i: nat, j: nat)
    requires i <= j < |Run(Init(start), actions).sessions|
    ensures
      var sessions := Run(Init(start), actions).sessions;
      && sessions[i].epoch <= sessions[j].epoch
      && (sessions[i].epoch == sessions[j].epoch ==> sessions[i].binding == sessions[j].binding)
  {
    InitInv(start);
    RunKeepsInv(Init(start), actions);
    SessionsAt(Run(Init(start), actions).sessions, i, j);
  }

  /** The session changes only in a step of the newest lease, while that lease is live. */
  lemma {:induction false} SessionChangesUnderNewestLease(start: int, actions: seq<Action>, a: Action)
    requires Step(Run(Init(start), actions), a).state.session != Run(Init(start), actions).state.session
    ensures
      var w := Run(Init(start), actions);
      && (a.DoCommitSession? || a.DoAdvanceSession?)
      && a.fence == |w.grants| >= 1
      && Live(w.state.active, w.now)
      && Step(w, a).state.session.epoch == w.state.session.epoch + 1
  {
    hide Run;
    InitInv(start);
    RunKeepsInv(Init(start), actions);
  }

  /** Recovery accepts any later state of a run as the successor of any earlier one. */
  lemma {:induction false} GateAcceptsEveryLaterState(start: int, before: seq<Action>, between: seq<Action>)
    ensures Gate(Run(Init(start), before).state, Run(Run(Init(start), before), between).state)
  {
    InitInv(start);
    RunKeepsInv(Init(start), before);
    RunFollows(Run(Init(start), before), between);
  }

  /** In a reachable state a poll is granted exactly when the request is unexpired at the head
      of the pruned queue under its own ticket, no lease is live, its session is current, and
      the counters have room. */
  lemma {:induction false} GrantedExactlyAtTheHead(start: int, actions: seq<Action>, a: Action)
    requires a.DoTryGrant?
    ensures
      var w := Run(Init(start), actions);
      var p := Prune(w.state, w.now);
      var o := Section(w, a);
      (o.reply.Ok? && o.reply.value.Granted?) <==>
        && !Live(w.state.active, w.now)
        && p.queue != []
        && p.queue[0].requestId == a.requestId
        && p.queue[0].ticket == a.ticket
        && Expected(w.state, a.expected)
        && w.state.nextFence < MAX_SAFE_INTEGER
        && w.state.revision < MAX_SAFE_INTEGER
  {
    InitInv(start);
    RunKeepsInv(Init(start), actions);
    var w := Run(Init(start), actions);
    GrantedExactly(w, a);
  }

  /** With room left in the counters no critical section of a reachable state ever finds its own
      result invalid: the shape check on the written state is inductive. */
  lemma {:induction false} WritesAreValid(start: int, actions: seq<Action>, a: Action)
    requires !a.Tick? && (a.DoEnqueue? ==> a.requestId !in Run(Init(start), actions).drawn)
    requires Room(Run(Init(start), actions).state)
    ensures Section(Run(Init(start), actions), a).reply != Err(Invalid)
  {
    InitInv(start);
    RunKeepsInv(Init(start), actions);
    SectionIsValid(Run(Init(start), actions), a);
  }

  // ---- Details of the last two theorems ---------------------------------------------------

  lemma {:induction false} SortedIsUnique(queue: seq<Entry>, nextTicket: int, drawn: set<Id>)
    requires QueueInv(queue, nextTicket, drawn) && nextTicket <= MAX_SAFE_INTEGER + 1
    ensures ValidQueue(queue)
  {
    if queue != [] {
      assert queue[|queue| - 1] in queue;
      SortedIsUnique(queue[..|queue| - 1], nextTicket, drawn);
    }
  }

  lemma GrantedExactly(w: World, a: Action)
    requires Inv(w) && a.DoTryGrant?
    ensures
      var queue := Unexpired(w.state.queue, w.now);
      var o := Section(w, a);
      (o.reply.Ok? && o.reply.value.Granted?) <==>
        && !Live(w.state.active, w.now)
        && queue != []
        && queue[0].requestId == a.requestId
        && queue[0].ticket == a.ticket
        && Expected(w.state, a.expected)
        && w.state.nextFence < MAX_SAFE_INTEGER
        && w.state.revision < MAX_SAFE_INTEGER
  {
    var s := w.state;
    var queue := Unexpired(s.queue, w.now);
    UnexpiredKeepsQueue(s.queue, w.now, s.nextTicket, w.drawn);
    PollFindsHead(queue, a.requestId, a.ticket);
    if queue != [] && queue[0].requestId == a.requestId {
      ServingTheHead(queue, s.nextTicket, w.drawn);
      SortedIsUnique(Without(queue, a.requestId), s.nextTicket, w.drawn);
    }
  }

  ghost predicate Room(s: State) {
    && s.revision < MAX_SAFE_INTEGER
    && s.nextTicket < MAX_SAFE_INTEGER
    && s.nextFence < MAX_SAFE_INTEGER
    && s.session.epoch < MAX_SAFE_INTEGER
  }

  lemma EnqueueIsValid(w: World, requestId: Id, deadline: int)
    requires Inv(w) && Room(w.state) && requestId !in w.drawn
    ensures Enqueue(w.state, requestId, deadline, w.now).reply != Err(Invalid)
  {
    var s := w.state;
    var queue := Unexpired(s.queue, w.now);
    UnexpiredKeepsQueue(s.queue, w.now, s.nextTicket, w.drawn);
    JoinKeepsQueue(queue, requestId, deadline, s.nextTicket, w.drawn);
    SortedIsUnique(queue + [Entry(requestId, s.nextTicket, deadline)], s.nextTicket + 1, w.drawn + {requestId});
  }

  lemma TryGrantIsValid(w: World, requestId: Id, ticket: int, leaseMs: nat, expected: Option<Session>)
    requires Inv(w) && Room(w.state)
    ensures TryGrant(w.state, requestId, ticket, leaseMs, expected, w.now).reply != Err(Invalid)
  {
    var s := w.state;
    var queue := Unexpired(s.queue, w.now);
    UnexpiredKeepsQueue(s.queue, w.now, s.nextTicket, w.drawn);
    SortedIsUnique(queue, s.nextTicket, w.drawn);
    WithoutKeepsQueue(queue, requestId, s.nextTicket, w.drawn);
    SortedIsUnique(Without(queue, requestId), s.nextTicket, w.drawn);
  }

  lemma SectionIsValid(w: World, a: Action)
    requires Inv(w) && Room(w.state) && !a.Tick? && (a.DoEnqueue? ==> a.requestId !in w.drawn)
    ensures Section(w, a).reply != Err(Invalid)
  {
    match a
    case DoEnqueue(r, d) => EnqueueIsValid(w, r, d);
    case DoTryGrant(r, t, l, e) => TryGrantIsValid(w, r, t, l, e);
    case DoRemoveQueued(r) =>
      WithoutKeepsQueue(w.state.queue, r, w.state.nextTicket, w.drawn);
      SortedIsUnique(Without(w.state.queue, r), w.state.nextTicket, w.drawn);
    case _ =>
  }
}
