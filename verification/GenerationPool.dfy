/** The process-local queue in front of the provider command: at most `limit` runs at a time, the
    others wait in the order in which they came, and a waiting one may be aborted. */
module GenerationPool {
  import opened Prelude
  import opened Lists

  /** Callers are numbered as they come. `running` and `served` record who holds a place and who
      ever got one; the process itself keeps `active` and `waiting`. */
  datatype Pool = Pool(limit: nat, active: int, waiting: seq<nat>, running: set<nat>, served: seq<nat>, next: nat)

  datatype Event = Arrive | Finish(who: nat) | Abort(caller: nat)

  function Start(p: Pool, who: nat): Pool {
    p.(active := p.active + 1, running := p.running + {who}, served := p.served + [who])
  }

  /** `acquire` */
  function Acquire(p: Pool): Pool {
    var q := p.(next := p.next + 1);
    if p.active < p.limit then Start(q, p.next) else q.(waiting := p.waiting + [p.next])
  }

  /** `drain` */
  function Drain(p: Pool): Pool
    decreases |p.waiting|
  {
    if p.active < p.limit && p.waiting != []
    then Drain(Start(p.(waiting := p.waiting[1..]), p.waiting[0])) else p
  }

  /** The end of a run: give the place back, then wake waiters. */
  function Release(p: Pool, who: nat): Pool {
    Drain(p.(active := p.active - 1, running := p.running - {who}))
  }

  function Without(waiting: seq<nat>, caller: nat): (r: seq<nat>)
    ensures forall w :: w in r <==> w in waiting && w != caller
    ensures |r| <= |waiting|
  {
    Filter(waiting, (w: nat) => w != caller)
  }

  function Next(p: Pool, e: Event): Pool {
    match e
    case Arrive => Acquire(p)
    case Finish(who) => if who in p.running then Release(p, who) else p
    case Abort(caller) => p.(waiting := Without(p.waiting, caller))
  }

  function Run(p: Pool, events: seq<Event>): Pool
    decreases |events|
  {
    if events == [] then p else Run(Next(p, events[0]), events[1..])
  }

  function Init(limit: nat): Pool {
    Pool(limit, 0, [], {}, [], 0)
  }

  /** Strictly increasing and all below `high`. */
  predicate Ascending(s: seq<nat>, high: int) {
    s == [] ||
    var front, last := s[..|s| - 1], s[|s| - 1];
    last < high && Ascending(front, last)
  }

  predicate Before(s: seq<nat>, t: seq<nat>) {
    forall x, y :: x in s && y in t ==> x < y
  }

  ghost predicate Inv(p: Pool) {
    && p.active == |p.running| <= p.limit
    && (p.waiting != [] ==> p.active == p.limit)
    && Ascending(p.waiting, p.next)
    && Ascending(p.served, p.next)
    && Before(p.served, p.waiting)
    && (forall r :: r in p.running ==> r in p.served)
  }

  lemma {:induction false} AscendingBound(s: seq<nat>, high: int, higher: int)
    requires Ascending(s, high) && high <= higher
    ensures Ascending(s, higher)
    ensures forall x :: x in s ==> x < high
  {
    if s != [] {
      var front, last := s[..|s| - 1], s[|s| - 1];
      assert s == front + [last];
      AscendingBound(front, last, last);
    }
  }

  lemma {:induction false} AscendingAppend(s: seq<nat>, x: nat, high: int)
    requires (forall y :: y in s ==> y < x) && x < high && Ascending(s, high)
    ensures Ascending(s + [x], high)
  {
    assert (s + [x])[..|s|] == s;
    AscendingTighten(s, high, x);
  }

  lemma {:induction false} AscendingTighten(s: seq<nat>, high: int, bound: int)
    requires Ascending(s, high) && forall y :: y in s ==> y < bound
    ensures Ascending(s, bound)
  {
    if s != [] { assert s[|s| - 1] in s; }
  }

  lemma {:induction false} AscendingTail(s: seq<nat>, high: int)
    requires Ascending(s, high) && s != []
    ensures Ascending(s[1..], high) && forall y :: y in s[1..] ==> s[0] < y
  {
    var front, last := s[..|s| - 1], s[|s| - 1];
    if front != [] {
      AscendingTail(front, last);
      AscendingBound(front, last, last);
      assert s[1..][..|s| - 2] == front[1..];
      assert s[1..] == front[1..] + [last];
      assert front[0] in front;
    }
  }

  lemma {:induction false} AscendingWithout(s: seq<nat>, high: int, caller: nat)
    requires Ascending(s, high)
    ensures Ascending(Without(s, caller), high)
  {
    if s != [] {
      var front, last := s[..|s| - 1], s[|s| - 1];
      AscendingWithout(front, last, caller);
      if last == caller {
        AscendingBound(Without(front, caller), last, high);
      } else {
        assert Without(s, caller) == Without(front, caller) + [last];
        assert (Without(front, caller) + [last])[..|Without(front, caller)|] == Without(front, caller);
      }
    }
  }

  /** The invariant with a place just given back: waiters may be there although a place is free. */
  ghost predicate Draining(p: Pool) {
    && p.active == |p.running| <= p.limit
    && (p.waiting != [] ==> p.active >= p.limit - 1)
    && Ascending(p.waiting, p.next)
    && Ascending(p.served, p.next)
    && Before(p.served, p.waiting)
    && (forall r :: r in p.running ==> r in p.served)
  }

  lemma {:induction false} HeadMayStart(waiting: seq<nat>, served: seq<nat>, next: nat)
    requires waiting != [] && Ascending(waiting, next) && Ascending(served, next) && Before(served, waiting)
    ensures
      && waiting[0] !in served
      && Ascending(waiting[1..], next) && Ascending(served + [waiting[0]], next)
      && Before(served + [waiting[0]], waiting[1..])
  {
    assert waiting[0] in waiting;
    AscendingTail(waiting, next);
    AscendingBound(waiting, next, next);
    AscendingAppend(served, waiting[0], next);
  }

  lemma StartKeeps(p: Pool)
    requires Draining(p) && p.active < p.limit && p.waiting != []
    ensures Inv(Start(p.(waiting := p.waiting[1..]), p.waiting[0]))
  {
    HeadMayStart(p.waiting, p.served, p.next);
  }

  lemma {:induction false} DrainKeeps(p: Pool)
    requires Draining(p)
    ensures Inv(Drain(p))
  {
    if p.active < p.limit && p.waiting != [] {
      StartKeeps(p);
      var q := Start(p.(waiting := p.waiting[1..]), p.waiting[0]);
      assert Drain(p) == Drain(q) == q;
    }
  }

  lemma ArrivalKeeps(p: Pool)
    requires Inv(p)
    ensures Inv(Acquire(p))
  {
    AscendingBound(p.waiting, p.next, p.next + 1);
    AscendingBound(p.served, p.next, p.next + 1);
    if p.active < p.limit {
      assert p.next !in p.served;
      AscendingAppend(p.served, p.next, p.next + 1);
    } else {
      AscendingAppend(p.waiting, p.next, p.next + 1);
    }
  }

  lemma NextKeepsInv(p: Pool, e: Event)
    requires Inv(p)
    ensures Inv(Next(p, e))
  {
    match e
    case Arrive => ArrivalKeeps(p);
    case Finish(who) =>
      if who in p.running { DrainKeeps(p.(active := p.active - 1, running := p.running - {who})); }
    case Abort(caller) => AscendingWithout(p.waiting, p.next, caller);
  }

  lemma {:induction false} DrainKeepsLimit(p: Pool)
    ensures Drain(p).limit == p.limit
    decreases |p.waiting|
  {
    if p.active < p.limit && p.waiting != [] {
      DrainKeepsLimit(Start(p.(waiting := p.waiting[1..]), p.waiting[0]));
    }
  }

  lemma {:induction false} RunKeepsLimit(p: Pool, events: seq<Event>)
    ensures Run(p, events).limit == p.limit
    decreases |events|
  {
    if events != [] {
      var e := events[0];
      if e.Finish? { DrainKeepsLimit(p.(active := p.active - 1, running := p.running - {e.who})); }
      RunKeepsLimit(Next(p, e), events[1..]);
    }
  }

  lemma {:induction false} RunKeepsInv(p: Pool, events: seq<Event>)
    requires Inv(p)
    ensures Inv(Run(p, events))
    decreases |events|
  {
    if events != [] {
      NextKeepsInv(p, events[0]);
      RunKeepsInv(Next(p, events[0]), events[1..]);
    }
  }

  /** Over every sequence of arrivals, endings and aborts: never more than `limit` runs at a time,
      nobody waits while a place is free, and places are given in the order of arrival. */
  lemma {:induction false} PlacesAreFairAndBounded(limit: nat, events: seq<Event>)
    ensures
      var p := Run(Init(limit), events);
      && |p.running| <= limit
      && (p.waiting != [] ==> |p.running| == limit)
      && Ascending(p.served, p.next)
      && Before(p.served, p.waiting)
  {
    RunKeepsInv(Init(limit), events);
    RunKeepsLimit(Init(limit), events);
  }

  predicate Known(p: Pool, caller: nat) {
    caller in p.served || caller in p.waiting
  }

  lemma {:induction false} DrainForgetsNobody(p: Pool, caller: nat)
    ensures Known(Drain(p), caller) <==> Known(p, caller)
    ensures Drain(p).next == p.next
    decreases |p.waiting|
  {
    if p.active < p.limit && p.waiting != [] {
      assert p.waiting == [p.waiting[0]] + p.waiting[1..];
      DrainForgetsNobody(Start(p.(waiting := p.waiting[1..]), p.waiting[0]), caller);
    }
  }

  lemma NextForgetsOnlyAborted(p: Pool, e: Event, caller: nat)
    requires caller < Next(p, e).next && (caller < p.next ==> Known(p, caller))
    ensures Known(Next(p, e), caller) || e == Abort(caller)
  {
    if e.Finish? && e.who in p.running {
      DrainForgetsNobody(p.(active := p.active - 1, running := p.running - {e.who}), caller);
    }
  }

  lemma {:induction false} RunForgetsOnlyAborted(p: Pool, events: seq<Event>, caller: nat)
    requires caller < Run(p, events).next && (caller < p.next ==> Known(p, caller))
    ensures Known(Run(p, events), caller) || Abort(caller) in events
    decreases |events|
  {
    if events != [] {
      var q := Next(p, events[0]);
      if caller < q.next {
        NextForgetsOnlyAborted(p, events[0], caller);
      }
      if events[0] != Abort(caller) {
        RunForgetsOnlyAborted(q, events[1..], caller);
      }
    }
  }

  /** Whoever has come was given a place, still waits, or was aborted. */
  lemma {:induction false} NobodyIsForgotten(limit: nat, events: seq<Event>, caller: nat)
    requires caller < Run(Init(limit), events).next
    ensures
      var p := Run(Init(limit), events);
      caller in p.served || caller in p.waiting || Abort(caller) in events
  {
    RunForgetsOnlyAborted(Init(limit), events, caller);
  }

  // ---- What each event does ----------------------------------------------------------------------------

  /** An arrival is numbered next, and starts at once exactly when a place is free. */
  lemma ArrivalIsServedOrWaits(p: Pool)
    ensures
      var q := Next(p, Arrive);
      && q.next == p.next + 1
      && if p.active < p.limit
         then q.running == p.running + {p.next} && q.served == p.served + [p.next] && q.waiting == p.waiting
         else q.running == p.running && q.served == p.served && q.waiting == p.waiting + [p.next]
  {
  }

  /** The end of a run gives its place to the one who has waited longest, and to nobody else. */
  lemma EndServesTheNext(p: Pool, who: nat)
    requires Inv(p) && who in p.running
    ensures
      var q := Next(p, Finish(who));
      if p.waiting == [] then q.running == p.running - {who} && q.served == p.served && q.waiting == []
      else
        && q.running == p.running - {who} + {p.waiting[0]}
        && q.served == p.served + [p.waiting[0]] && q.waiting == p.waiting[1..]
  {
    var freed := p.(active := p.active - 1, running := p.running - {who});
    if p.waiting != [] {
      var q := Start(freed.(waiting := p.waiting[1..]), p.waiting[0]);
      assert Drain(freed) == Drain(q) == q;
    }
  }

  /** The order in which callers got their places is the order of arrival, and an aborted one gets
      none: its number is never served afterwards. */
  lemma {:induction false} AbortedIsNeverServed(limit: nat, before: seq<Event>, caller: nat, after: seq<Event>)
    requires caller in Run(Init(limit), before).waiting
    ensures
      var p := Run(Next(Run(Init(limit), before), Abort(caller)), after);
      caller !in p.served && caller !in p.waiting
  {
    var p := Run(Init(limit), before);
    RunKeepsInv(Init(limit), before);
    AscendingBound(p.waiting, p.next, p.next);
    assert caller !in p.served;
    RunKeepsUnknown(Next(p, Abort(caller)), after, caller);
  }

  lemma NextKeepsUnknown(p: Pool, e: Event, caller: nat)
    requires caller < p.next && !Known(p, caller)
    ensures caller < Next(p, e).next && !Known(Next(p, e), caller)
  {
    if e.Finish? && e.who in p.running {
      DrainForgetsNobody(p.(active := p.active - 1, running := p.running - {e.who}), caller);
    }
  }

  lemma {:induction false} RunKeepsUnknown(p: Pool, events: seq<Event>, caller: nat)
    requires caller < p.next && !Known(p, caller)
    ensures !Known(Run(p, events), caller)
    decreases |events|
  {
    if events != [] {
      NextKeepsUnknown(p, events[0], caller);
      RunKeepsUnknown(Next(p, events[0]), events[1..], caller);
    }
  }

  class Coordinator {
    const limit: nat
    var active: int
    var waiting: seq<nat>
    ghost var running: set<nat>
    ghost var served: seq<nat>
    var next: nat

    ghost function View(): Pool
      reads this
    {
      Pool(limit, active, waiting, running, served, next)
    }

    constructor (limit: nat)
      ensures View() == Init(limit)
    {
      this.limit := limit;
      active, waiting, next := 0, [], 0;
      running, served := {}, [];
    }

    /** Tells whether the caller may start at once. */
    method AcquirePlace() returns (started: bool)
      modifies this
      ensures View() == Acquire(old(View()))
      ensures started <==> old(active) < limit
    {
      var who := next;
      next := next + 1;
      started := active < limit;
      if started {
        active := active + 1;
        running, served := running + {who}, served + [who];
      } else {
        waiting := waiting + [who];
      }
    }

    method ReleasePlace(who: nat)
      modifies this
      ensures View() == Release(old(View()), who)
    {
      active := active - 1;
      running := running - {who};
      ghost var freed := View();
      while active < limit && waiting != []
        invariant Drain(View()) == Drain(freed)
        decreases |waiting|
      {
        var first := waiting[0];
        waiting := waiting[1..];
        active := active + 1;
        running, served := running + {first}, served + [first];
      }
    }

    method CancelWaiting(caller: nat)
      modifies this`waiting
      ensures View() == Next(old(View()), Abort(caller))
    {
      waiting := Without(waiting, caller);
    }
  }
}
