/** The generator meets the editor: what the canvas holds once a generated workflow has been applied. */
module WorkflowEffect {
  import opened Prelude
  import opened Lists
  import opened Canvas
  import opened CanvasSoundness
  import opened Workflow
  import opened WorkflowValidity

  // ---- Applying a growing batch ---------------------------------------------------------------------------

  function Final(s: Snapshot, ops: seq<CanvasOp>): Snapshot {
    ApplyUpTo(s, ops, |ops|)
  }

  lemma {:induction false} PrefixApplied(s: Snapshot, a: seq<CanvasOp>, b: seq<CanvasOp>, n: nat)
    requires n <= |a|
    ensures ApplyUpTo(s, a + b, n) == ApplyUpTo(s, a, n)
  {
    if n > 0 {
      PrefixApplied(s, a, b, n - 1);
    }
  }

  lemma FinalOneMore(s: Snapshot, ops: seq<CanvasOp>, op: CanvasOp)
    ensures Final(s, ops + [op]) == Apply(Final(s, ops), op, |ops|)
  {
    PrefixApplied(s, ops, [op], |ops|);
  }

  // ---- The nodes ----------------------------------------------------------------------------------------------

  function PlannedNode(input: Input, ids: seq<Name>, n: nat): Node
    requires |ids| == |input.plans| && n < |ids|
  {
    Node(ids[n], TypeOf(input.plans[n].kind))
  }

  function PlannedNodes(input: Input, ids: seq<Name>, n: nat): (r: seq<Node>)
    requires |ids| == |input.plans| && n <= |ids|
    ensures |r| == n && forall i :: 0 <= i < n ==> r[i] == PlannedNode(input, ids, i)
  {
    if n == 0 then [] else PlannedNodes(input, ids, n - 1) + [PlannedNode(input, ids, n - 1)]
  }

  lemma {:induction false} AddsAreApplied(input: Input, ids: seq<Name>, start: (real, real), s: Snapshot, n: nat)
    requires NewNames(ids, input, s) && n <= |ids|
    ensures Final(s, AddOps(input, ids, start, n)) == Snapshot(s.nodes + PlannedNodes(input, ids, n), s.connections)
  {
    if n == 0 {
      assert s.nodes + [] == s.nodes;
    } else {
      AddsAreApplied(input, ids, start, s, n - 1);
      FinalOneMore(s, AddOps(input, ids, start, n - 1), AddOf(input, ids, start, n - 1));
      assert s.nodes + PlannedNodes(input, ids, n)
        == s.nodes + PlannedNodes(input, ids, n - 1) + [PlannedNode(input, ids, n - 1)];
    }
  }

  // ---- The connections ----------------------------------------------------------------------------------------

  function SourceOf(plans: seq<Plan>, ids: seq<Name>, w: Wish): Name
    requires |ids| == |plans| && Resolvable(plans, w)
  {
    if w.external then Plain(w.from) else IdOf(plans, ids, w.from)
  }

  function TargetOf(plans: seq<Plan>, ids: seq<Name>, w: Wish): Name
    requires |ids| == |plans| && Resolvable(plans, w)
  {
    IdOf(plans, ids, w.to)
  }

  predicate Joins(c: Connection, from: Name, to: Name) {
    c.from == from && c.to == to
  }

  predicate Joined(connections: seq<Connection>, from: Name, to: Name) {
    exists c :: c in connections && Joins(c, from, to)
  }

  /** The editor refuses connections that start at a frame. */
  predicate FromFrame(s: Snapshot, w: Wish) {
    w.external && IsFrame(s.nodes, Plain(w.from))
  }

  lemma {:induction false} FindInFront(a: seq<Node>, b: seq<Node>, id: Name)
    ensures FindNode(a + b, id) == if FindNode(a, id).Some? then FindNode(a, id) else FindNode(b, id)
  {
    if a == [] {
      assert a + b == b;
    } else {
      FindInFront(a[1..], b, id);
      assert (a + b)[1..] == a[1..] + b;
    }
  }

  lemma {:induction false} PlannedNodeIsFound(input: Input, ids: seq<Name>, i: nat)
    requires |ids| == |input.plans| && i < |ids|
    ensures
      var found := FindNode(PlannedNodes(input, ids, |ids|), ids[i]);
      found.Some? && found.value.nodeType != FrameNode
  {
    var planned := PlannedNodes(input, ids, |ids|);
    assert planned[i] in planned && planned[i].id == ids[i];
    forall n | n in planned ensures n.nodeType != FrameNode {
      var j :| 0 <= j < |planned| && n == planned[j];
      assert n == PlannedNode(input, ids, j);
    }
  }

  lemma {:induction false} PlannedNodesConnect(input: Input, ids: seq<Name>, s: Snapshot, ref: nat)
    requires NewNames(ids, input, s) && KnownRef(input.plans, ref)
    ensures Connectable(s.nodes + PlannedNodes(input, ids, |ids|), Some(IdOf(input.plans, ids, ref)))
  {
    var planned, id := PlannedNodes(input, ids, |ids|), IdOf(input.plans, ids, ref);
    var i :| 0 <= i < |ids| && input.plans[i].ref == ref && ids[i] == id;
    FindInFront(s.nodes, planned, id);
    PlannedNodeIsFound(input, ids, i);
    assert FindNode(s.nodes, id).None?;
  }

  lemma {:induction false} ExternalNodesConnect(input: Input, ids: seq<Name>, s: Snapshot, w: Wish)
    requires |ids| == |input.plans| && Connectible(input, ids, s, w) && w.external
    ensures Connectable(s.nodes + PlannedNodes(input, ids, |ids|), Some(Plain(w.from))) <==> !FromFrame(s, w)
  {
    FindInFront(s.nodes, PlannedNodes(input, ids, |ids|), Plain(w.from));
    assert FindNode(s.nodes, Plain(w.from)).Some?;
  }

  /** The canvas after some of the connections. */
  ghost predicate Wiring(c: Snapshot, input: Input, ids: seq<Name>, s: Snapshot, wishes: seq<Wish>)
    requires |ids| == |input.plans| && forall w :: w in wishes ==> Resolvable(input.plans, w)
  {
    && c.nodes == s.nodes + PlannedNodes(input, ids, |ids|)
    && (forall e :: e in s.connections ==> e in c.connections)
    && (forall e :: e in c.connections ==> e in s.connections || Wanted(e, input, ids, s, wishes))
    && (forall w :: w in wishes && !FromFrame(s, w) ==>
          Joined(c.connections, SourceOf(input.plans, ids, w), TargetOf(input.plans, ids, w)))
  }

  ghost predicate Wanted(e: Connection, input: Input, ids: seq<Name>, s: Snapshot, wishes: seq<Wish>)
    requires |ids| == |input.plans| && forall w :: w in wishes ==> Resolvable(input.plans, w)
  {
    exists w :: w in wishes && !FromFrame(s, w) && Joins(e, SourceOf(input.plans, ids, w), TargetOf(input.plans, ids, w))
  }

  lemma ConnectApplies(c: Snapshot, op: CanvasOp, index: nat)
    requires op.ConnectNodes? && op.from.Some? && op.to.Some?
    ensures Apply(c, op, index).nodes == c.nodes
    ensures
      var after := Apply(c, op, index).connections;
      && (forall e :: e in c.connections ==> e in after)
      && (forall e :: e in after ==> e in c.connections || (Connectable(c.nodes, op.from) && Joins(e, op.from.value, op.to.value)))
      && (Connectable(c.nodes, op.from) && Connectable(c.nodes, op.to) ==> Joined(after, op.from.value, op.to.value))
  {
    var after := Apply(c, op, index).connections;
    if TakesEffect(c, op) {
      assert after[|after| - 1] in after && Joins(after[|after| - 1], op.from.value, op.to.value);
    } else if Connectable(c.nodes, op.from) && Connectable(c.nodes, op.to) {
      var e :| e in c.connections && SameEdge(e, op);
      assert Joins(e, op.from.value, op.to.value);
    }
  }

  lemma {:induction false} WishesConnect(input: Input, ids: seq<Name>, s: Snapshot, w: Wish)
    requires NewNames(ids, input, s) && Connectible(input, ids, s, w)
    ensures
      var nodes, op := s.nodes + PlannedNodes(input, ids, |ids|), ConnectOf(input.plans, ids, w);
      Connectable(nodes, op.to) && (Connectable(nodes, op.from) <==> !FromFrame(s, w))
  {
    PlannedNodesConnect(input, ids, s, w.to);
    if w.external { ExternalNodesConnect(input, ids, s, w); } else { PlannedNodesConnect(input, ids, s, w.from); }
  }

  lemma WantedByMore(e: Connection, input: Input, ids: seq<Name>, s: Snapshot, front: seq<Wish>, w: Wish)
    requires |ids| == |input.plans| && Resolvable(input.plans, w) && forall v :: v in front ==> Resolvable(input.plans, v)
    requires Wanted(e, input, ids, s, front)
      || (!FromFrame(s, w) && Joins(e, SourceOf(input.plans, ids, w), TargetOf(input.plans, ids, w)))
    ensures Wanted(e, input, ids, s, front + [w])
  {
    assert w in front + [w];
    if Wanted(e, input, ids, s, front) {
      var v :| v in front && !FromFrame(s, v) && Joins(e, SourceOf(input.plans, ids, v), TargetOf(input.plans, ids, v));
      assert v in front + [w];
    }
  }

  lemma StillJoined(before: seq<Connection>, after: seq<Connection>, from: Name, to: Name)
    requires Joined(before, from, to) && forall e :: e in before ==> e in after
    ensures Joined(after, from, to)
  {
    var e :| e in before && Joins(e, from, to);
    assert e in after;
  }

  /** What one more connection makes of the canvas. */
  ghost predicate Extends(c: Snapshot, c1: Snapshot, input: Input, ids: seq<Name>, s: Snapshot, w: Wish)
    requires |ids| == |input.plans| && Resolvable(input.plans, w)
  {
    var from, to := SourceOf(input.plans, ids, w), TargetOf(input.plans, ids, w);
    && c1.nodes == c.nodes
    && (forall e :: e in c.connections ==> e in c1.connections)
    && (forall e :: e in c1.connections ==> e in c.connections || (!FromFrame(s, w) && Joins(e, from, to)))
    && (!FromFrame(s, w) ==> Joined(c1.connections, from, to))
  }

  lemma {:induction false} ConnectExtends(c: Snapshot, c1: Snapshot, input: Input, ids: seq<Name>, s: Snapshot, w: Wish, index: nat)
    requires NewNames(ids, input, s) && Connectible(input, ids, s, w)
    requires c.nodes == s.nodes + PlannedNodes(input, ids, |ids|)
    requires c1 == Apply(c, ConnectOf(input.plans, ids, w), index)
    ensures Extends(c, c1, input, ids, s, w)
  {
    hide Apply, FindNode, PlannedNodes;
    ConnectApplies(c, ConnectOf(input.plans, ids, w), index);
    WishesConnect(input, ids, s, w);
  }

  lemma WireOneMore(c: Snapshot, c1: Snapshot, input: Input, ids: seq<Name>, s: Snapshot, front: seq<Wish>, w: Wish)
    requires |ids| == |input.plans| && Resolvable(input.plans, w) && forall v :: v in front ==> Resolvable(input.plans, v)
    requires Wiring(c, input, ids, s, front) && Extends(c, c1, input, ids, s, w)
    ensures Wiring(c1, input, ids, s, front + [w])
  {
    forall e | e in c1.connections && e !in s.connections ensures Wanted(e, input, ids, s, front + [w]) {
      WantedByMore(e, input, ids, s, front, w);
    }
    forall v | v in front && !FromFrame(s, v)
      ensures Joined(c1.connections, SourceOf(input.plans, ids, v), TargetOf(input.plans, ids, v))
    {
      StillJoined(c.connections, c1.connections, SourceOf(input.plans, ids, v), TargetOf(input.plans, ids, v));
    }
  }

  lemma {:induction false} ConnectionsAreApplied(
    input: Input, ids: seq<Name>, s: Snapshot, ops: seq<CanvasOp>, wishes: seq<Wish>)
    requires NewNames(ids, input, s) && forall w :: w in wishes ==> Connectible(input, ids, s, w)
    requires forall w :: w in wishes ==> Resolvable(input.plans, w)
    requires Wiring(Final(s, ops), input, ids, s, [])
    ensures Wiring(Final(s, ops + ConnectOps(input.plans, ids, wishes)), input, ids, s, wishes)
  {
    if wishes == [] {
      assert ops + [] == ops;
    } else {
      var front, last := wishes[..|wishes| - 1], wishes[|wishes| - 1];
      assert wishes == front + [last];
      ConnectionsAreApplied(input, ids, s, ops, front);
      var before := ops + ConnectOps(input.plans, ids, front);
      assert ops + ConnectOps(input.plans, ids, wishes) == before + [ConnectOf(input.plans, ids, last)];
      FinalOneMore(s, before, ConnectOf(input.plans, ids, last));
      var c, c1 := Final(s, before), Final(s, before + [ConnectOf(input.plans, ids, last)]);
      ConnectExtends(c, c1, input, ids, s, last, |before|);
      WireOneMore(c, c1, input, ids, s, front, last);
    }
  }

  lemma {:induction false} RunsChangeNothing(input: Input, ids: seq<Name>, s: Snapshot, ops: seq<CanvasOp>, n: nat)
    requires |ids| == |input.plans| && n <= |ids|
    ensures Final(s, ops + RunOps(input, ids, n)) == Final(s, ops)
  {
    if n == 0 {
      assert ops + [] == ops;
    } else {
      RunsChangeNothing(input, ids, s, ops, n - 1);
      var before := ops + RunOps(input, ids, n - 1);
      if Runs(input, input.plans[n - 1]) {
        var op := RunGeneration(Some(ids[n - 1]), Some(TypeOf(input.plans[n - 1].kind)));
        assert ops + RunOps(input, ids, n) == before + [op];
        FinalOneMore(s, before, op);
      } else {
        assert ops + RunOps(input, ids, n) == before;
      }
    }
  }

  // ---- Which wishes survive --------------------------------------------------------------------------------------

  /** A planned connection has the same pair of texts as the reference to a node of the canvas. */
  predicate Shadowed(input: Input, w: Wish) {
    w.external && KeyTaken(InternalWishes(input), w)
  }

  lemma KeptExactly(input: Input, w: Wish)
    requires w in AllWishes(input)
    ensures w in Dedupe(AllWishes(input)) <==> !Shadowed(input, w)
  {
    var internal, all := InternalWishes(input), AllWishes(input);
    InternalAreInternal(input);
    ReferencesResolve(input.plans, true);
    DedupeIsUnique(all);
    DedupeKeepsPrefix(internal, ReferenceWishes(input.plans, true));
    if KeyTaken(internal, w) {
      assert KeyTaken(Dedupe(internal), w) by {
        var u :| u in internal && TextKey(u) == TextKey(w);
        assert KeyTaken(Dedupe(internal), u);
      }
      var v :| v in Dedupe(internal) && TextKey(v) == TextKey(w);
      if w in Dedupe(all) { UniqueMember(Dedupe(all), TextKey, v, w); }
    } else {
      assert KeyTaken(Dedupe(all), w);
    }
  }

  /** The names of a wish's ends say which wish it was. */
  lemma EndsTellWishes(input: Input, ids: seq<Name>, s: Snapshot, v: Wish, w: Wish)
    requires NewNames(ids, input, s) && RefsDiffer(input.plans)
    requires Connectible(input, ids, s, v) && Connectible(input, ids, s, w)
    requires SourceOf(input.plans, ids, v) == SourceOf(input.plans, ids, w)
    requires TargetOf(input.plans, ids, v) == TargetOf(input.plans, ids, w)
    ensures v == w
  {
    if TextKey(v) != TextKey(w) {
      TextsTellKeysApart(input, ids, s, v, w);
      assert false;
    }
    if !v.external { IdsTellRefsApart(input, ids, s, v.from, v.from); }
    if !w.external { IdsTellRefsApart(input, ids, s, w.from, w.from); }
  }

  // ---- The whole workflow -------------------------------------------------------------------------------------------

  lemma {:induction false} NodesThenWires(input: Input, s: Snapshot, start: (real, real), ids: seq<Name>, wishes: seq<Wish>)
    requires NewNames(ids, input, s) && forall w :: w in wishes ==> Connectible(input, ids, s, w)
    requires forall w :: w in wishes ==> Resolvable(input.plans, w)
    ensures Wiring(Final(s, AddOps(input, ids, start, |ids|) + ConnectOps(input.plans, ids, wishes)), input, ids, s, wishes)
  {
    AddsAreApplied(input, ids, start, s, |ids|);
    ConnectionsAreApplied(input, ids, s, AddOps(input, ids, start, |ids|), wishes);
  }

  lemma {:induction false} SelectingAndRunning(input: Input, s: Snapshot, ids: seq<Name>, wired: seq<CanvasOp>)
    requires |ids| == |input.plans|
    ensures Final(s, wired + [SelectNodes(Some(ids))] + RunOps(input, ids, |ids|)) == Final(s, wired)
  {
    FinalOneMore(s, wired, SelectNodes(Some(ids)));
    RunsChangeNothing(input, ids, s, wired + [SelectNodes(Some(ids))], |ids|);
  }

  lemma BatchIsApplied(input: Input, s: Snapshot, existing: seq<Rect>, ids: seq<Name>)
    requires NewNames(ids, input, s) && TrimmedAlike(input.plans) && PlansOk(input.plans, s) && WishesOk(input)
    ensures forall w :: w in AllWishes(input) ==> Resolvable(input.plans, w)
    ensures Wiring(Final(s, Batch(input, existing, ids)), input, ids, s, Dedupe(AllWishes(input)))
  {
    WishesResolve(input);
    KeptWishes(input, ids, s);
    NodesThenWires(input, s, StartOf(input, existing), ids, Dedupe(AllWishes(input)));
    SelectingAndRunning(input, s, ids, ConnectedOps(input, existing, ids));
  }

  /** What joins the ends of a wish was made for that wish. */
  lemma JoinedByItself(input: Input, s: Snapshot, ids: seq<Name>, c: Snapshot, kept: seq<Wish>, w: Wish)
    requires FreshIds(ids, input, s) && RefsDiffer(input.plans) && Connectible(input, ids, s, w)
    requires forall v :: v in kept ==> Connectible(input, ids, s, v)
    requires forall v :: v in kept ==> Resolvable(input.plans, v)
    requires Wiring(c, input, ids, s, kept)
    requires Joined(c.connections, SourceOf(input.plans, ids, w), TargetOf(input.plans, ids, w))
    ensures w in kept && !FromFrame(s, w)
  {
    var e :| e in c.connections && Joins(e, SourceOf(input.plans, ids, w), TargetOf(input.plans, ids, w));
    IdsTellRefsApart(input, ids, s, w.to, w.to);
    var v :| v in kept && !FromFrame(s, v) && Joins(e, SourceOf(input.plans, ids, v), TargetOf(input.plans, ids, v));
    EndsTellWishes(input, ids, s, v, w);
  }

  lemma WishIsMetExactly(input: Input, s: Snapshot, ids: seq<Name>, c: Snapshot, w: Wish)
    requires FreshIds(ids, input, s) && TrimmedAlike(input.plans)
    requires PlansOk(input.plans, s) && WishesOk(input) && w in AllWishes(input)
    requires forall v :: v in AllWishes(input) ==> Resolvable(input.plans, v)
    requires Wiring(c, input, ids, s, Dedupe(AllWishes(input)))
    ensures Joined(c.connections, SourceOf(input.plans, ids, w), TargetOf(input.plans, ids, w))
      <==> !FromFrame(s, w) && !Shadowed(input, w)
  {
    AllConnectible(input, ids, s);
    DistinctTrimsDistinctRefs(input.plans);
    KeptExactly(input, w);
    if Joined(c.connections, SourceOf(input.plans, ids, w), TargetOf(input.plans, ids, w)) {
      JoinedByItself(input, s, ids, c, Dedupe(AllWishes(input)), w);
    }
  }

  lemma {:induction false} BatchIsBuilt(input: Input, s: Snapshot, existing: seq<Rect>, ids: seq<Name>, c: Snapshot)
    requires NewNames(ids, input, s) && TrimmedAlike(input.plans) && PlansOk(input.plans, s) && WishesOk(input)
    requires c == Final(s, Batch(input, existing, ids))
    ensures forall v :: v in AllWishes(input) ==> Resolvable(input.plans, v)
    ensures c.nodes == s.nodes + PlannedNodes(input, ids, |ids|)
    ensures forall e :: e in s.connections ==> e in c.connections
    ensures forall e :: e in c.connections ==> e in s.connections || Wanted(e, input, ids, s, AllWishes(input))
  {
    BatchIsApplied(input, s, existing, ids);
    forall e | e in c.connections && e !in s.connections ensures Wanted(e, input, ids, s, AllWishes(input)) {
      var v :| v in Dedupe(AllWishes(input)) && !FromFrame(s, v)
        && Joins(e, SourceOf(input.plans, ids, v), TargetOf(input.plans, ids, v));
      assert v in AllWishes(input);
    }
  }

  /** The generator meets the editor. Applied to the canvas it was made for, a workflow adds exactly
      the planned nodes, keeps every connection, and adds only wanted ones. */
  lemma {:induction false} WorkflowIsBuilt(input: Input, s: Snapshot, existing: seq<Rect>, ids: seq<Name>)
    requires FreshIds(ids, input, s) && TrimmedAlike(input.plans) && WorkflowOps(input, s, existing, ids).Some?
    ensures forall v :: v in AllWishes(input) ==> Resolvable(input.plans, v)
    ensures
      var c := Final(s, WorkflowOps(input, s, existing, ids).value);
      && c.nodes == s.nodes + PlannedNodes(input, ids, |ids|)
      && (forall e :: e in s.connections ==> e in c.connections)
      && (forall e :: e in c.connections ==> e in s.connections || Wanted(e, input, ids, s, AllWishes(input)))
  {
    BatchIsBuilt(input, s, existing, ids, Final(s, Batch(input, existing, ids)));
  }

  /** The two ends of a wish are then connected exactly when it neither starts at a frame nor is
      shadowed by a planned connection of the same texts. */
  lemma WishIsGrantedExactly(input: Input, s: Snapshot, existing: seq<Rect>, ids: seq<Name>, w: Wish)
    requires FreshIds(ids, input, s) && TrimmedAlike(input.plans)
    requires WorkflowOps(input, s, existing, ids).Some? && w in AllWishes(input)
    ensures Resolvable(input.plans, w)
    ensures
      var c := Final(s, WorkflowOps(input, s, existing, ids).value);
      Joined(c.connections, SourceOf(input.plans, ids, w), TargetOf(input.plans, ids, w)) <==>
        !FromFrame(s, w) && !Shadowed(input, w)
  {
    BatchIsApplied(input, s, existing, ids);
    WishIsMetExactly(input, s, ids, Final(s, Batch(input, existing, ids)), w);
  }

  function ScriptPlan(ref: nat, referenceNodes: seq<nat>): Plan {
    Plan(ref, ref, true, Script, NoPrompt, None, None, [], referenceNodes, false)
  }

  function TwoPlans(): seq<Plan> {
    [ScriptPlan(1, []), ScriptPlan(2, [1])]
  }

  lemma {:induction false} TwoPlansWishes(external: bool)
    ensures ChainWishes(TwoPlans()) == [Wish(1, 2, false)]
    ensures ReferenceWishes(TwoPlans(), external) == if external then [Wish(1, 2, true)] else []
  {
    var front := [ScriptPlan(1, [])];
    assert TwoPlans()[..1] == front && front[..0] == [];
    assert ReferenceWishes(front, external) == [];
    assert [1][..0] == [];
    assert WishesTo(2, [1], true) == WishesTo(2, [], true) + [Wish(1, 2, true)];
  }

  lemma TwoPlansAreOk(s: Snapshot)
    requires s == Snapshot([Node(Plain(1), TextNode)], [])
    ensures PlansOk(TwoPlans(), s) && TrimmedAlike(TwoPlans())
  {
    assert TwoPlans()[..1] == [ScriptPlan(1, [])];
    assert Unique([ScriptPlan(1, [])], TrimmedRef);
  }

  /** Such a reference exists: the second of two chained nodes refers to a node of the canvas whose
      id reads like the first one's reference. */
  lemma ReferenceCanBeShadowed() returns (input: Input, s: Snapshot, w: Wish)
    ensures WellFormed(s) && PlansOk(input.plans, s) && WishesOk(input) && TrimmedAlike(input.plans)
    ensures w in AllWishes(input) && !FromFrame(s, w) && Shadowed(input, w)
  {
    input, s := Input(TwoPlans(), [], Horizontal, None, None, false), Snapshot([Node(Plain(1), TextNode)], []);
    w := Wish(1, 2, true);
    TwoPlansWishes(false);
    TwoPlansWishes(true);
    TwoPlansAreOk(s);
    assert input.plans[0] in input.plans && input.plans[1] in input.plans;
    assert Wish(1, 2, false) in InternalWishes(input);
  }

  /** Generation is requested exactly for the planned media nodes that are meant to run. */
  lemma {:induction false} RunsAreRequested(input: Input, ids: seq<Name>, n: nat, op: CanvasOp)
    requires |ids| == |input.plans| && n <= |ids|
    ensures op in RunOps(input, ids, n) <==>
      exists i :: 0 <= i < n && Runs(input, input.plans[i])
                  && op == RunGeneration(Some(ids[i]), Some(TypeOf(input.plans[i].kind)))
  {
    if n > 0 {
      RunsAreRequested(input, ids, n - 1, op);
    }
  }

  predicate PlansMedia(p: Plan) {
    p.kind != Script && p.kind != OtherKind
  }

  /** The whole workflow asks for the generation of a node, in the mode of its type, exactly when a
      plan of an image, a video or a sound is to run, by itself or because the workflow says so. */
  lemma {:induction false} WorkflowRequestsExactly(input: Input, existing: seq<Rect>, ids: seq<Name>, op: CanvasOp)
    requires |ids| == |input.plans| && WishesOk(input) && op.RunGeneration?
    ensures op in Batch(input, existing, ids) <==>
      exists i :: 0 <= i < |ids| && PlansMedia(input.plans[i]) && (input.autoRun || input.plans[i].runs)
                  && op == RunGeneration(Some(ids[i]), Some(TypeOf(input.plans[i].kind)))
  {
    hide Batch, RunOps;
    RunsAreRequested(input, ids, |ids|, op);
    RunsAreLast(input, existing, ids, op);
    forall i | 0 <= i < |ids| ensures Runs(input, input.plans[i]) <==>
        PlansMedia(input.plans[i]) && (input.autoRun || input.plans[i].runs)
    {
    }
  }

  lemma {:induction false} RunsAreLast(input: Input, existing: seq<Rect>, ids: seq<Name>, op: CanvasOp)
    requires |ids| == |input.plans| && WishesOk(input) && op.RunGeneration?
    ensures op in Batch(input, existing, ids) <==> op in RunOps(input, ids, |ids|)
  {
    hide AddOps, ConnectOps, RunOps, Dedupe, AllWishes, InternalWishes, KnownRef;
    WishesResolve(input);
    var start, wishes := StartOf(input, existing), Dedupe(AllWishes(input));
    forall i | 0 <= i < |ids| ensures AddOps(input, ids, start, |ids|)[i].AddNode? {
      AddsExactly(input, ids, start, |ids|, i);
    }
    forall i | 0 <= i < |wishes| ensures ConnectOps(input.plans, ids, wishes)[i].ConnectNodes? {
      ConnectsOnly(input.plans, ids, wishes, i);
    }
  }

  /** Exactly when the generator refuses: without plans, or with a plan that lacks a reference or a
      title, repeats a reference, needs a prompt and has none, or refers to a node that does not exist;
      or with a listed edge or a reference that names an unknown plan. */
  lemma WorkflowIsRefusedExactly(input: Input, s: Snapshot, existing: seq<Rect>, ids: seq<Name>)
    requires |ids| == |input.plans|
    ensures WorkflowOps(input, s, existing, ids).None? <==>
      || input.plans == [] || !Unique(input.plans, TrimmedRef)
      || (exists p :: p in input.plans && (p.trimmed == 0 || !p.titled))
      || (exists p :: p in input.plans && PlansMedia(p) &&
            (p.prompt == BlankPrompt
             || (p.prompt == NoPrompt && p.kind != CharacterCards && p.kind != CharacterThreeView && p.kind != StoryboardVideo)))
      || (exists p, id :: p in input.plans && id in p.referenceNodes && FindNode(s.nodes, Plain(id)).None?)
      || (exists w :: w in InternalWishes(input) && !(KnownRef(input.plans, w.from) && KnownRef(input.plans, w.to)))
  {
    hide Batch, InternalWishes, FindNode, Unique;
    forall p | p in input.plans
      ensures PlanOk(p, s) <==>
        && p.trimmed != 0 && p.titled
        && !(PlansMedia(p) &&
               (p.prompt == BlankPrompt
                || (p.prompt == NoPrompt && p.kind != CharacterCards && p.kind != CharacterThreeView && p.kind != StoryboardVideo)))
        && forall id :: id in p.referenceNodes ==> FindNode(s.nodes, Plain(id)).Some?
    {
    }
  }
}
