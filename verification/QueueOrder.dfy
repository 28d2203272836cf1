/** The durable queue order, official slots, and which queued task may take a free slot. */
module QueueOrder {
  import opened Prelude
  import opened JournalRecord
  import opened Journal

  predicate LiveQueueLease(r: Record, now: int) {
    r.state == Queued && r.queueLease.Some? && r.queueLease.value.expiresAt > now
  }

  predicate ReservesSlot(r: Record) {
    r.state == Pending || r.state == Unknown || r.state == Accepted
  }

  function CreatedAt(r: Record): int {
    if r.task.Some? then r.task.value.createdAt else r.updatedAt
  }

  /** `compareDurableQueueOrder` for the records stored under keys `a` and `b`: records without a
      ticket come first, by age and then by key; the others by ticket. */
  function Compare(records: map<Id, Record>, a: Id, b: Id): int
    requires a in records && b in records
  {
    var l, r := records[a], records[b];
    if l.queueTicket.Some? && r.queueTicket.Some? then l.queueTicket.value - r.queueTicket.value
    else if l.queueTicket.None? && r.queueTicket.Some? then -1
    else if l.queueTicket.Some? && r.queueTicket.None? then 1
    else if CreatedAt(l) != CreatedAt(r) then CreatedAt(l) - CreatedAt(r)
    else a - b
  }

  predicate Before(records: map<Id, Record>, a: Id, b: Id)
    requires a in records && b in records
  {
    Compare(records, a, b) < 0
  }

  function Slots(j: Journal): set<Id> {
    set k | k in j.records && ReservesSlot(j.records[k])
  }

  function LiveQueue(j: Journal, now: int): set<Id> {
    set k | k in j.records && LiveQueueLease(j.records[k], now)
  }

  /** The live queue entries served before `k`. */
  function Predecessors(j: Journal, now: int, k: Id): set<Id>
    requires k in j.records
  {
    set p | p in j.records && LiveQueueLease(j.records[p], now) && Before(j.records, p, k)
  }

  /** What promotion means: a slot is free, and fewer live entries precede `k` than slots are. */
  predicate HasPriority(j: Journal, now: int, k: Id, maxActive: nat)
    requires k in j.records
  {
    && k in LiveQueue(j, now)
    && |Predecessors(j, now, k)| < maxActive - |Slots(j)|
  }

  /** No two queued records share a ticket. */
  ghost predicate TicketsDiffer(j: Journal) {
    forall a, b :: a in j.records && b in j.records && a != b && j.records[a].queueTicket.Some? ==>
      j.records[a].queueTicket != j.records[b].queueTicket
  }

  /** The comparator is a strict total order on the journal exactly when tickets differ. */
  lemma OrderIsTotalExactlyWhenTicketsDiffer(j: Journal)
    ensures TicketsDiffer(j) <==>
      forall a, b :: a in j.records && b in j.records && a != b ==>
        (Before(j.records, a, b) <==> !Before(j.records, b, a))
  {
    forall a, b | a in j.records && b in j.records && a != b
      && j.records[a].queueTicket.Some? && j.records[a].queueTicket == j.records[b].queueTicket
      ensures !Before(j.records, a, b) && !Before(j.records, b, a)
    {
    }
  }

  lemma OrderIsTransitive(records: map<Id, Record>, a: Id, b: Id, c: Id)
    requires a in records && b in records && c in records
    requires Before(records, a, b) && Before(records, b, c)
    ensures Before(records, a, c) && !Before(records, a, a)
  {
  }

  // ---- Sorting and slicing ---------------------------------------------------------------------

  /** `s` lists keys of `records` in strictly increasing order. */
  ghost predicate Ordered(records: map<Id, Record>, s: seq<Id>) {
    s == [] ||
    var front, last := s[..|s| - 1], s[|s| - 1];
    && Ordered(records, front)
    && last in records
    && forall k :: k in front ==> k in records && Before(records, k, last)
  }

  lemma {:induction false} OrderedAt(records: map<Id, Record>, s: seq<Id>, i: nat, j: nat)
    requires Ordered(records, s) && i < j < |s|
    ensures s[i] in records && s[j] in records && Before(records, s[i], s[j])
  {
    var front := s[..|s| - 1];
    if j < |front| {
      OrderedAt(records, front, i, j);
    } else {
      assert front[i] in front;
    }
  }

  lemma {:induction false} OrderedHasNoDuplicates(records: map<Id, Record>, s: seq<Id>)
    requires Ordered(records, s)
    ensures |Elements(s)| == |s|
  {
    if s != [] {
      var front, last := s[..|s| - 1], s[|s| - 1];
      OrderedHasNoDuplicates(records, front);
      assert Elements(s) == Elements(front) + {last};
      assert last !in front;
    }
  }

  function Elements(s: seq<Id>): set<Id> {
    set k | k in s
  }

  /** In a sorted listing of the live queue an entry stands at the index that counts its live
      predecessors; so the slice of the first `available` entries is the declared priority. */
  lemma {:induction false} SliceIsPriority(j: Journal, now: int, s: seq<Id>, i: nat)
    requires Ordered(j.records, s) && Elements(s) == LiveQueue(j, now) && i < |s|
    ensures s[i] in j.records && |Predecessors(j, now, s[i])| == i
  {
    var k := s[i];
    assert k in Elements(s);
    forall p | p in s[..i] ensures p in Predecessors(j, now, k) {
      var a :| 0 <= a < i && s[a] == p;
      OrderedAt(j.records, s, a, i);
      assert p in Elements(s);
    }
    forall p | p in Predecessors(j, now, k) ensures p in s[..i] {
      assert p in Elements(s);
      var a :| 0 <= a < |s| && s[a] == p;
      if a > i {
        OrderedAt(j.records, s, i, a);
      }
      assert a < i;
    }
    assert Predecessors(j, now, k) == Elements(s[..i]);
    OrderedPrefix(j.records, s, i);
    OrderedHasNoDuplicates(j.records, s[..i]);
  }

  lemma {:induction false} OrderedPrefix(records: map<Id, Record>, s: seq<Id>, n: nat)
    requires Ordered(records, s) && n <= |s|
    ensures Ordered(records, s[..n])
  {
    if n == |s| {
      assert s[..n] == s;
    } else {
      OrderedPrefix(records, s[..|s| - 1], n);
      assert s[..|s| - 1][..n] == s[..n];
    }
  }

  /** Puts `k` where it belongs in an ordered listing. */
  method InsertOrdered(records: map<Id, Record>, s: seq<Id>, k: Id) returns (r: seq<Id>)
    requires k in records && k !in s && Ordered(records, s)
    requires forall p :: p in s ==> p in records && (Before(records, p, k) <==> !Before(records, k, p))
    ensures Ordered(records, r) && Elements(r) == Elements(s) + {k}
    decreases |s|
  {
    r := s + [k];
    assert r[..|s|] == s;
    if s != [] && Before(records, k, s[|s| - 1]) {
      var last := s[|s| - 1];
      var front := InsertOrdered(records, s[..|s| - 1], k);
      r := front + [last];
      assert r[..|front|] == front;
      assert forall p :: p in front ==> p in Elements(front);
      assert Elements(r) == Elements(front) + {last};
      assert Elements(s) == Elements(s[..|s| - 1]) + {last};
    } else {
      forall p | p in s ensures Before(records, p, k) {
        if p != s[|s| - 1] {
          var a :| 0 <= a < |s| && s[a] == p;
          OrderedAt(records, s, a, |s| - 1);
          OrderIsTransitive(records, p, s[|s| - 1], k);
        }
      }
      assert Elements(r) == Elements(s) + {k};
    }
  }

  /** `hasQueuedGenerationPriority`: filter the live entries, sort them, take the first
      `available`, and look whether the candidate is among them. */
  method FindPriority(j: Journal, now: int, k: Id, maxActive: nat) returns (first: bool)
    requires k in j.records && TicketsDiffer(j)
    ensures first == HasPriority(j, now, k, maxActive)
  {
    var available := maxActive - |Slots(j)|;
    if available <= 0 { return false; }
    var todo := LiveQueue(j, now);
    var sorted: seq<Id> := [];
    while todo != {}
      invariant todo <= LiveQueue(j, now)
      invariant Ordered(j.records, sorted) && Elements(sorted) == LiveQueue(j, now) - todo
    {
      var p :| p in todo;
      OrderIsTotalExactlyWhenTicketsDiffer(j);
      assert p !in Elements(sorted);
      assert forall q :: q in sorted ==> q in Elements(sorted);
      sorted := InsertOrdered(j.records, sorted, p);
      todo := todo - {p};
    }
    var slice := sorted[..Min(available, |sorted|)];
    first := k in slice;
    if k in Elements(sorted) {
      var i :| 0 <= i < |sorted| && sorted[i] == k;
      SliceIsPriority(j, now, sorted, i);
      assert i < |slice| ==> slice[i] == k;
      if first {
        var a :| 0 <= a < |slice| && slice[a] == k;
        SliceIsPriority(j, now, sorted, a);
      }
    } else {
      assert forall a :: 0 <= a < |slice| ==> slice[a] == sorted[a] && sorted[a] in Elements(sorted);
    }
  }
}
