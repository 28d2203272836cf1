/** The generator meets the validator: which generated workflows are accepted. */
module WorkflowValidity {
  import opened Prelude
  import opened Lists
  import opened Canvas
  import opened CanvasSoundness
  import opened Workflow

  // ---- Checking a growing batch ----------------------------------------------------------------------------

  function After(s: Snapshot, ops: seq<CanvasOp>): Check {
    CheckUpTo(s, ops, |ops|)
  }

  lemma {:induction false} PrefixCheck(s: Snapshot, a: seq<CanvasOp>, b: seq<CanvasOp>, n: nat)
    requires n <= |a|
    ensures CheckUpTo(s, a + b, n) == CheckUpTo(s, a, n)
  {
    if n > 0 {
      PrefixCheck(s, a, b, n - 1);
    }
  }

  lemma AfterOneMore(s: Snapshot, ops: seq<CanvasOp>, op: CanvasOp)
    ensures After(s, ops + [op]) == CheckOp(After(s, ops), s.nodes, op, |ops|)
  {
    PrefixCheck(s, ops, [op], |ops|);
  }

  // ---- Adding the nodes ------------------------------------------------------------------------------------------

  lemma {:induction false} AddsAreAccepted(input: Input, ids: seq<Name>, start: (real, real), s: Snapshot, n: nat)
    requires NewNames(ids, input, s) && n <= |ids|
    ensures After(s, AddOps(input, ids, start, n)) == WithNodes(s, ids[..n])
  {
    if n == 0 {
      assert Elements(ids[..0]) == {};
    } else {
      AddsAreAccepted(input, ids, start, s, n - 1);
      AfterOneMore(s, AddOps(input, ids, start, n - 1), AddOf(input, ids, start, n - 1));
      AddOneMore(input, ids, start, s, n - 1);
    }
  }

  /** The validator's view of the canvas with some more nodes. */
  function WithNodes(s: Snapshot, ids: seq<Name>): Check {
    var live := NodeIds(s.nodes) + Elements(ids);
    Check(live, live, Begin(s).links, Begin(s).keys, [])
  }

  lemma AddOneMore(input: Input, ids: seq<Name>, start: (real, real), s: Snapshot, n: nat)
    requires NewNames(ids, input, s) && n < |ids|
    ensures CheckOp(WithNodes(s, ids[..n]), s.nodes, AddOf(input, ids, start, n), n) == WithNodes(s, ids[..n + 1])
  {
    assert ids[..n + 1] == ids[..n] + [ids[n]];
    assert Elements(ids[..n + 1]) == Elements(ids[..n]) + {ids[n]};
    assert ids[n] !in Elements(ids[..n]);
    AddIsTracked(WithNodes(s, ids[..n]), s.nodes, input, ids, start, n);
  }

  lemma AddIsTracked(k: Check, nodes: seq<Node>, input: Input, ids: seq<Name>, start: (real, real), n: nat)
    requires |ids| == |input.plans| && n < |ids| && ids[n] !in k.known
    ensures CheckOp(k, nodes, AddOf(input, ids, start, n), n)
      == Check(k.live + {ids[n]}, k.known + {ids[n]}, k.links, k.keys, k.issues)
  {
    var op := AddOf(input, ids, start, n);
    assert Issues(k, nodes, op) == 0;
    assert k.issues + Repeat(n, 0) == k.issues;
  }

  // ---- Connecting them ---------------------------------------------------------------------------------------------

  predicate IsLoop(w: Wish) {
    !w.external && w.from == w.to
  }

  predicate NoLoops(wishes: seq<Wish>) {
    forall w :: w in wishes ==> !IsLoop(w)
  }

  /** What the connections need from the input and the canvas. */
  ghost predicate Connectible(input: Input, ids: seq<Name>, s: Snapshot, w: Wish) {
    && Resolvable(input.plans, w)
    && (w.external ==> Plain(w.from) in NodeIds(s.nodes))
  }

  ghost predicate RefsDiffer(plans: seq<Plan>) {
    forall i, j :: 0 <= i < j < |plans| ==> plans[i].ref != plans[j].ref
  }

  lemma {:induction false} IdsTellRefsApart(input: Input, ids: seq<Name>, s: Snapshot, a: nat, b: nat)
    requires NewNames(ids, input, s) && RefsDiffer(input.plans) && KnownRef(input.plans, a) && KnownRef(input.plans, b)
    ensures IdOf(input.plans, ids, a) == IdOf(input.plans, ids, b) <==> a == b
    ensures IdOf(input.plans, ids, a) in ids && IdOf(input.plans, ids, a) !in NodeIds(s.nodes)
  {
    var i :| 0 <= i < |ids| && input.plans[i].ref == a && ids[i] == IdOf(input.plans, ids, a);
    var j :| 0 <= j < |ids| && input.plans[j].ref == b && ids[j] == IdOf(input.plans, ids, b);
  }

  /** Two wishes with different texts connect different nodes. */
  lemma TextsTellKeysApart(input: Input, ids: seq<Name>, s: Snapshot, v: Wish, w: Wish)
    requires NewNames(ids, input, s) && RefsDiffer(input.plans)
    requires Connectible(input, ids, s, v) && Connectible(input, ids, s, w) && TextKey(v) != TextKey(w)
    ensures OpKey(ConnectOf(input.plans, ids, v)) != OpKey(ConnectOf(input.plans, ids, w))
  {
    IdsTellRefsApart(input, ids, s, v.to, w.to);
    if !v.external { IdsTellRefsApart(input, ids, s, v.from, v.to); }
    if !w.external { IdsTellRefsApart(input, ids, s, w.from, w.to); }
    if !v.external && !w.external { IdsTellRefsApart(input, ids, s, v.from, w.from); }
  }

  /** The validator's view after some of the connections. */
  ghost predicate Connecting(k: Check, input: Input, ids: seq<Name>, s: Snapshot, wishes: seq<Wish>)
    requires |ids| == |input.plans| && forall w :: w in wishes ==> Resolvable(input.plans, w)
  {
    && k.live == NodeIds(s.nodes) + Elements(ids)
    && (forall key :: key in k.keys ==>
          key in Begin(s).keys || exists w :: w in wishes && key == OpKey(ConnectOf(input.plans, ids, w)))
    && (k.issues == [] <==> NoLoops(wishes))
  }

  lemma KeyIsFresh(k: Check, input: Input, ids: seq<Name>, s: Snapshot, front: seq<Wish>, w: Wish)
    requires FreshIds(ids, input, s) && RefsDiffer(input.plans)
    requires Connectible(input, ids, s, w) && forall v :: v in front ==> Connectible(input, ids, s, v)
    requires forall v :: v in front ==> Resolvable(input.plans, v)
    requires Connecting(k, input, ids, s, front) && forall v :: v in front ==> TextKey(v) != TextKey(w)
    ensures OpKey(ConnectOf(input.plans, ids, w)) !in k.keys
  {
    var key := OpKey(ConnectOf(input.plans, ids, w));
    IdsTellRefsApart(input, ids, s, w.to, w.to);
    forall v | v in front ensures OpKey(ConnectOf(input.plans, ids, v)) != key {
      TextsTellKeysApart(input, ids, s, v, w);
    }
  }

  lemma ConnectIssuesExactly(k: Check, input: Input, ids: seq<Name>, s: Snapshot, front: seq<Wish>, w: Wish)
    requires FreshIds(ids, input, s) && RefsDiffer(input.plans)
    requires Connectible(input, ids, s, w) && forall v :: v in front ==> Connectible(input, ids, s, v)
    requires forall v :: v in front ==> Resolvable(input.plans, v)
    requires Connecting(k, input, ids, s, front) && forall v :: v in front ==> TextKey(v) != TextKey(w)
    ensures ConnectIssues(k, ConnectOf(input.plans, ids, w)) == 0 <==> !IsLoop(w)
  {
    KeyIsFresh(k, input, ids, s, front, w);
    IdsTellRefsApart(input, ids, s, w.to, w.to);
    if !w.external { IdsTellRefsApart(input, ids, s, w.from, w.to); }
  }

  lemma ConnectionIsTracked(k: Check, nodes: seq<Node>, op: CanvasOp, index: nat)
    requires op.ConnectNodes?
    ensures
      var after := CheckOp(k, nodes, op, index);
      && after.live == k.live && after.keys == k.keys + {OpKey(op)}
      && (after.issues == [] <==> k.issues == [] && ConnectIssues(k, op) == 0)
  {
    NoMoreIssues(k, nodes, op, index);
  }

  lemma LoopsOfMore(front: seq<Wish>, w: Wish)
    ensures NoLoops(front + [w]) <==> NoLoops(front) && !IsLoop(w)
  {
    assert forall v :: v in front + [w] <==> v in front || v == w;
  }

  lemma ConnectOneMore(k: Check, input: Input, ids: seq<Name>, s: Snapshot, front: seq<Wish>, w: Wish, index: nat)
    requires FreshIds(ids, input, s) && RefsDiffer(input.plans)
    requires Connectible(input, ids, s, w) && forall v :: v in front ==> Connectible(input, ids, s, v)
    requires forall v :: v in front ==> Resolvable(input.plans, v)
    requires Connecting(k, input, ids, s, front) && forall v :: v in front ==> TextKey(v) != TextKey(w)
    ensures Connecting(CheckOp(k, s.nodes, ConnectOf(input.plans, ids, w), index), input, ids, s, front + [w])
  {
    ConnectIssuesExactly(k, input, ids, s, front, w);
    ConnectionIsTracked(k, s.nodes, ConnectOf(input.plans, ids, w), index);
    KeysAfterOneMore(k.keys, input, ids, s, front, w);
    LoopsOfMore(front, w);
  }

  lemma KeysAfterOneMore(keys: set<Key>, input: Input, ids: seq<Name>, s: Snapshot, front: seq<Wish>, w: Wish)
    requires |ids| == |input.plans| && Resolvable(input.plans, w) && forall v :: v in front ==> Resolvable(input.plans, v)
    requires forall key :: key in keys ==>
      key in Begin(s).keys || exists v :: v in front && key == OpKey(ConnectOf(input.plans, ids, v))
    ensures forall key :: key in keys + {OpKey(ConnectOf(input.plans, ids, w))} ==>
      key in Begin(s).keys || exists v :: v in front + [w] && key == OpKey(ConnectOf(input.plans, ids, v))
  {
    assert w in front + [w];
    forall key | key in keys && key !in Begin(s).keys
      ensures exists v :: v in front + [w] && key == OpKey(ConnectOf(input.plans, ids, v))
    {
      var v :| v in front && key == OpKey(ConnectOf(input.plans, ids, v));
      assert v in front + [w];
    }
  }

  lemma JudgeOneMore(ops: seq<CanvasOp>, input: Input, ids: seq<Name>, s: Snapshot, front: seq<Wish>, w: Wish)
    requires FreshIds(ids, input, s) && RefsDiffer(input.plans)
    requires Connectible(input, ids, s, w) && forall v :: v in front ==> Connectible(input, ids, s, v)
    requires forall v :: v in front ==> Resolvable(input.plans, v)
    requires Connecting(After(s, ops), input, ids, s, front) && forall v :: v in front ==> TextKey(v) != TextKey(w)
    ensures Connecting(After(s, ops + [ConnectOf(input.plans, ids, w)]), input, ids, s, front + [w])
  {
    AfterOneMore(s, ops, ConnectOf(input.plans, ids, w));
    ConnectOneMore(After(s, ops), input, ids, s, front, w, |ops|);
  }

  lemma {:induction false} ConnectionsAreJudged(
    input: Input, ids: seq<Name>, s: Snapshot, ops: seq<CanvasOp>, wishes: seq<Wish>)
    requires FreshIds(ids, input, s) && RefsDiffer(input.plans)
    requires Unique(wishes, TextKey) && forall w :: w in wishes ==> Connectible(input, ids, s, w)
    requires forall w :: w in wishes ==> Resolvable(input.plans, w)
    requires Connecting(After(s, ops), input, ids, s, [])
    ensures Connecting(After(s, ops + ConnectOps(input.plans, ids, wishes)), input, ids, s, wishes)
  {
    hide After, ConnectOf;
    if wishes == [] {
      assert ops + [] == ops;
    } else {
      var front, last := wishes[..|wishes| - 1], wishes[|wishes| - 1];
      assert wishes == front + [last];
      ConnectionsAreJudged(input, ids, s, ops, front);
      var before := ops + ConnectOps(input.plans, ids, front);
      assert ops + ConnectOps(input.plans, ids, wishes) == before + [ConnectOf(input.plans, ids, last)];
      JudgeOneMore(before, input, ids, s, front, last);
    }
  }

  // ---- Selecting and running ------------------------------------------------------------------------------------------

  lemma {:induction false} AllPresent(live: set<Name>, ids: seq<Name>)
    requires forall id :: id in ids ==> id in live && id != EmptyName
    ensures MissingCount(live, ids) == 0
  {
    if ids != [] {
      AllPresent(live, ids[..|ids| - 1]);
      assert ids[|ids| - 1] in ids;
    }
  }

  lemma {:induction false} RunIsAccepted(k: Check, nodes: seq<Node>, op: CanvasOp, index: nat)
    requires op.RunGeneration? && Present(k.live, op.target) && op.target.value !in NodeIds(nodes)
    ensures CheckOp(k, nodes, op, index).live == k.live
    ensures CheckOp(k, nodes, op, index).issues == [] <==> k.issues == []
  {
    NoMoreIssues(k, nodes, op, index);
    assert FindNode(nodes, op.target.value).None?;
  }

  /** Operations that only refer to live nodes report nothing and change nothing. */
  lemma {:induction false} RunsAreAccepted(input: Input, ids: seq<Name>, s: Snapshot, ops: seq<CanvasOp>, n: nat)
    requires NewNames(ids, input, s) && n <= |ids|
    requires forall id :: id in ids ==> id in After(s, ops).live
    ensures After(s, ops + RunOps(input, ids, n)).live == After(s, ops).live
    ensures After(s, ops + RunOps(input, ids, n)).issues == [] <==> After(s, ops).issues == []
  {
    if n == 0 {
      assert ops + [] == ops;
    } else {
      RunsAreAccepted(input, ids, s, ops, n - 1);
      var before := ops + RunOps(input, ids, n - 1);
      if Runs(input, input.plans[n - 1]) {
        var op := RunGeneration(Some(ids[n - 1]), Some(TypeOf(input.plans[n - 1].kind)));
        assert ops + RunOps(input, ids, n) == before + [op];
        AfterOneMore(s, before, op);
        RunIsAccepted(After(s, before), s.nodes, op, |before|);
      } else {
        assert ops + RunOps(input, ids, n) == before;
      }
    }
  }

  // ---- The whole batch --------------------------------------------------------------------------------------------------

  lemma {:induction false} DedupeIsUnique(wishes: seq<Wish>)
    ensures Unique(Dedupe(wishes), TextKey)
  {
    if wishes != [] {
      var front, last := wishes[..|wishes| - 1], wishes[|wishes| - 1];
      DedupeIsUnique(front);
      if !KeyTaken(front, last) {
        AppendUnique(Dedupe(front), TextKey, last);
      }
    }
  }

  lemma {:induction false} DedupeKeepsPrefix(a: seq<Wish>, b: seq<Wish>)
    ensures forall w :: w in Dedupe(a) ==> w in Dedupe(a + b)
  {
    if b == [] {
      assert a + b == a;
    } else {
      DedupeKeepsPrefix(a, b[..|b| - 1]);
      assert (a + b)[..|a + b| - 1] == a + b[..|b| - 1];
    }
  }

  /** Dropping repeated pairs neither makes nor hides a self-loop. */
  lemma DedupeKeepsLoops(input: Input)
    ensures NoLoops(Dedupe(AllWishes(input))) <==> NoLoops(InternalWishes(input))
  {
    var internal := InternalWishes(input);
    InternalAreInternal(input);
    ReferencesResolve(input.plans, true);
    DedupeKeepsPrefix(internal, ReferenceWishes(input.plans, true));
    forall w | w in internal && IsLoop(w) ensures exists v :: v in Dedupe(AllWishes(input)) && IsLoop(v) {
      assert KeyTaken(Dedupe(internal), w);
      var v :| v in Dedupe(internal) && TextKey(v) == TextKey(w);
      assert v in internal && v in Dedupe(AllWishes(input)) && IsLoop(v);
    }
  }

  lemma {:induction false} ExternalSourcesExist(plans: seq<Plan>, s: Snapshot)
    requires forall p :: p in plans ==> PlanOk(p, s)
    ensures forall w :: w in ReferenceWishes(plans, true) ==> Plain(w.from) in NodeIds(s.nodes)
  {
    if plans != [] {
      var front, last := plans[..|plans| - 1], plans[|plans| - 1];
      assert plans == front + [last];
      ExternalSourcesExist(front, s);
      assert PlanOk(last, s);
      forall id | id in last.referenceNodes ensures Plain(id) in NodeIds(s.nodes) {
        assert FindNode(s.nodes, Plain(id)).Some?;
      }
    }
  }

  /** Equal texts trim to equal texts. */
  predicate TrimmedAlike(plans: seq<Plan>) {
    forall p, q :: p in plans && q in plans && p.ref == q.ref ==> p.trimmed == q.trimmed
  }

  lemma {:induction false} DistinctTrimsDistinctRefs(plans: seq<Plan>)
    requires Unique(plans, TrimmedRef) && TrimmedAlike(plans)
    ensures RefsDiffer(plans)
  {
    if plans != [] {
      var front, last := plans[..|plans| - 1], plans[|plans| - 1];
      assert plans == front + [last];
      DistinctTrimsDistinctRefs(front);
      forall i | 0 <= i < |front| ensures plans[i].ref != last.ref {
        assert front[i] in front && TrimmedRef(front[i]) != TrimmedRef(last);
      }
    }
  }

  lemma AllConnectible(input: Input, ids: seq<Name>, s: Snapshot)
    requires PlansOk(input.plans, s) && WishesOk(input)
    ensures forall w :: w in AllWishes(input) ==> Connectible(input, ids, s, w)
  {
    WishesResolve(input);
    InternalAreInternal(input);
    ExternalSourcesExist(input.plans, s);
  }

  /** The generator meets the validator: on any canvas and with fresh ids, a workflow that the
      generator builds is accepted exactly when no edge and no reference leads from a planned node
      to itself. */
  lemma WorkflowIsAcceptedExactly(input: Input, s: Snapshot, existing: seq<Rect>, ids: seq<Name>)
    requires FreshIds(ids, input, s) && TrimmedAlike(input.plans)
    requires WorkflowOps(input, s, existing, ids).Some?
    ensures Accepted(s, WorkflowOps(input, s, existing, ids).value) <==> NoLoops(InternalWishes(input))
  {
    var ops := ConnectedOps(input, existing, ids);
    DedupeKeepsLoops(input);
    ConnectedIsJudged(input, s, existing, ids);
    SelectionIsAccepted(input, ids, s, ops);
    RunsAreAccepted(input, ids, s, ops + [SelectNodes(Some(ids))], |ids|);
    assert WorkflowOps(input, s, existing, ids).value == ops + [SelectNodes(Some(ids))] + RunOps(input, ids, |ids|);
  }

  function ConnectedOps(input: Input, existing: seq<Rect>, ids: seq<Name>): seq<CanvasOp>
    requires |ids| == |input.plans| && WishesOk(input)
  {
    WishesResolve(input);
    AddOps(input, ids, StartOf(input, existing), |ids|) + ConnectOps(input.plans, ids, Dedupe(AllWishes(input)))
  }

  lemma ConnectedIsJudged(input: Input, s: Snapshot, existing: seq<Rect>, ids: seq<Name>)
    requires FreshIds(ids, input, s) && TrimmedAlike(input.plans)
    requires PlansOk(input.plans, s) && WishesOk(input)
    ensures
      var k := After(s, ConnectedOps(input, existing, ids));
      k.live == NodeIds(s.nodes) + Elements(ids) && (k.issues == [] <==> NoLoops(Dedupe(AllWishes(input))))
  {
    WishesResolve(input);
    KeptWishes(input, ids, s);
    NodesThenConnections(input, s, StartOf(input, existing), ids, Dedupe(AllWishes(input)));
  }

  lemma KeptWishes(input: Input, ids: seq<Name>, s: Snapshot)
    requires TrimmedAlike(input.plans) && PlansOk(input.plans, s) && WishesOk(input)
    ensures RefsDiffer(input.plans) && Unique(Dedupe(AllWishes(input)), TextKey)
    ensures forall w :: w in Dedupe(AllWishes(input)) ==> Connectible(input, ids, s, w) && Resolvable(input.plans, w)
  {
    DistinctTrimsDistinctRefs(input.plans);
    AllConnectible(input, ids, s);
    DedupeIsUnique(AllWishes(input));
  }

  lemma {:induction false} NodesThenConnections(input: Input, s: Snapshot, start: (real, real), ids: seq<Name>, wishes: seq<Wish>)
    requires FreshIds(ids, input, s) && RefsDiffer(input.plans) && Unique(wishes, TextKey)
    requires forall w :: w in wishes ==> Connectible(input, ids, s, w)
    requires forall w :: w in wishes ==> Resolvable(input.plans, w)
    ensures
      var k := After(s, AddOps(input, ids, start, |ids|) + ConnectOps(input.plans, ids, wishes));
      k.live == NodeIds(s.nodes) + Elements(ids) && (k.issues == [] <==> NoLoops(wishes))
  {
    var adds := AddOps(input, ids, start, |ids|);
    AddsAreAccepted(input, ids, start, s, |ids|);
    assert ids[..|ids|] == ids;
    assert Connecting(After(s, adds), input, ids, s, []);
    ConnectionsAreJudged(input, ids, s, adds, wishes);
  }

  lemma SelectionIsAccepted(input: Input, ids: seq<Name>, s: Snapshot, ops: seq<CanvasOp>)
    requires NewNames(ids, input, s) && After(s, ops).live == NodeIds(s.nodes) + Elements(ids)
    ensures After(s, ops + [SelectNodes(Some(ids))]).live == After(s, ops).live
    ensures After(s, ops + [SelectNodes(Some(ids))]).issues == [] <==> After(s, ops).issues == []
  {
    AfterOneMore(s, ops, SelectNodes(Some(ids)));
    NoMoreIssues(After(s, ops), s.nodes, SelectNodes(Some(ids)), |ops|);
    AllPresent(After(s, ops).live, ids);
  }
}
