/** What the validator promises about the editor: an accepted batch never touches a missing node
    and leaves a well-formed graph. */
module CanvasSoundness {
  import opened Prelude
  import opened Lists
  import opened Canvas

  // ---- Hypotheses ------------------------------------------------------------------------------------------

  predicate HasNode(nodes: seq<Node>, id: Name) {
    exists n :: n in nodes && n.id == id
  }

  /** Ordinary unique ids and no dangling connection. */
  predicate WellFormed(s: Snapshot) {
    && (forall n :: n in s.nodes ==> n.id.Plain?)
    && (forall c :: c in s.connections ==> c.id.Plain? && HasNode(s.nodes, c.from) && HasNode(s.nodes, c.to))
    && Unique(s.connections, ConnectionId)
  }

  /** The operation gives ordinary ids and names what it deletes. */
  predicate Ordinary(op: CanvasOp) {
    match op
    case AddNode(id, _, _) => id.Some? ==> id.value.Plain?
    case DeleteNode(node, nodes, _) => node.Some? || nodes.Some?
    case ConnectNodes(name, _, _, _, _) => name.Some? ==> name.value.Plain?
    case DeleteConnections(_, _, _) => forall id :: id in DoomedConnections(op) ==> id.Plain?
    case _ => true
  }

  predicate OrdinaryBatch(ops: seq<CanvasOp>) {
    forall op :: op in ops ==> Ordinary(op)
  }

  // ---- The validator's view and the editor's state ------------------------------------------------------------

  /** The name under which the validator tracks a connection of the editor. */
  function Tracked(id: Name): Name {
    if id.Generated? then Anonymous(id.step) else id
  }

  ghost predicate NodesAgree(k: Check, c: Snapshot, index: nat) {
    && (forall n :: n in c.nodes ==> (n.id.Plain? && n.id in k.live) || (n.id.Generated? && n.id.step < index))
    && (forall x :: x in k.live ==> x.Plain? && HasNode(c.nodes, x))
  }

  ghost predicate ConnectionsTracked(k: Check, c: Snapshot) {
    forall e :: e in c.connections ==>
      !e.id.Anonymous? && Tracked(e.id) in k.links && k.links[Tracked(e.id)] == LinkOf(e)
  }

  ghost predicate LinksLive(k: Check, index: nat) {
    forall id :: id in k.links ==>
      && (id.Plain? || (id.Anonymous? && id.index < index))
      && k.links[id].from in k.live && k.links[id].to in k.live
  }

  /** `connectionKeys` is the key image of `liveConnections`. */
  ghost predicate KeysMatch(k: Check) {
    k.keys == KeysOf(k.links)
  }

  ghost predicate Agrees(k: Check, c: Snapshot, index: nat) {
    NodesAgree(k, c, index) && ConnectionsTracked(k, c) && LinksLive(k, index) && KeysMatch(k)
  }

  lemma {:induction false} SnapshotLinksTracked(connections: seq<Connection>)
    requires Unique(connections, ConnectionId)
    ensures forall e :: e in connections ==>
      e.id in SnapshotLinks(connections) && SnapshotLinks(connections)[e.id] == LinkOf(e)
    ensures forall id :: id in SnapshotLinks(connections) ==>
      exists e :: e in connections && e.id == id && SnapshotLinks(connections)[id] == LinkOf(e)
  {
    if connections != [] {
      var front, last := connections[..|connections| - 1], connections[|connections| - 1];
      SnapshotLinksTracked(front);
      assert connections == front + [last];
      assert forall e :: e in front ==> ConnectionId(e) != ConnectionId(last);
      forall id | id in SnapshotLinks(connections)
        ensures exists e :: e in connections && e.id == id && SnapshotLinks(connections)[id] == LinkOf(e)
      {
        if id == last.id {
          assert last in connections;
        } else {
          var e :| e in front && e.id == id && SnapshotLinks(front)[id] == LinkOf(e);
          assert e in connections;
        }
      }
    }
  }

  lemma {:induction false} SnapshotKeysMatch(connections: seq<Connection>)
    requires Unique(connections, ConnectionId)
    ensures ConnectionKeys(connections) == KeysOf(SnapshotLinks(connections))
  {
    SnapshotLinksTracked(connections);
    var links := SnapshotLinks(connections);
    forall key | key in KeysOf(links) ensures key in ConnectionKeys(connections) {
      var id :| id in links && links[id].key == key;
      var e :| e in connections && e.id == id && links[id] == LinkOf(e);
      assert KeyOf(e) == key;
    }
    forall e | e in connections ensures KeyOf(e) in KeysOf(links) {
      assert links[e.id].key == KeyOf(e);
    }
  }

  lemma SnapshotLinksLive(s: Snapshot)
    requires WellFormed(s)
    ensures LinksLive(Begin(s), 0)
  {
    SnapshotLinksTracked(s.connections);
    var links := SnapshotLinks(s.connections);
    forall id | id in links
      ensures id.Plain? && links[id].from in NodeIds(s.nodes) && links[id].to in NodeIds(s.nodes)
    {
      var e :| e in s.connections && e.id == id && links[id] == LinkOf(e);
    }
  }

  lemma SnapshotTracked(s: Snapshot)
    requires WellFormed(s)
    ensures ConnectionsTracked(Begin(s), s)
  {
    SnapshotLinksTracked(s.connections);
  }

  lemma BeginAgrees(s: Snapshot)
    requires WellFormed(s)
    ensures Agrees(Begin(s), s, 0)
  {
    SnapshotTracked(s);
    SnapshotKeysMatch(s.connections);
    SnapshotLinksLive(s);
  }

  // ---- One operation --------------------------------------------------------------------------------------------

  lemma RemoveLinksKeysMatch(k: Check, ids: set<Name>)
    requires KeysMatch(k)
    ensures KeysMatch(RemoveLinks(k, ids))
  {
    var removed, links := Restrict(k.links, ids), k.links - ids;
    forall id | id in k.links ensures k.links[id].key in KeysOf(removed) + KeysOf(links) {
      if id in ids {
        assert removed[id] == k.links[id];
      } else {
        assert links[id] == k.links[id];
      }
    }
    forall id | id in links ensures links[id].key in KeysOf(k.links) {
      assert links[id] == k.links[id];
    }
    assert KeysOf(k.links) - (KeysOf(removed) - KeysOf(links)) == KeysOf(links);
  }

  lemma AddAgrees(k: Check, c: Snapshot, nodes: seq<Node>, op: CanvasOp, index: nat)
    requires Agrees(k, c, index) && op.AddNode? && Ordinary(op)
    ensures Agrees(Track(k, nodes, op, index), Apply(c, op, index), index + 1)
  {
    var c1, k1 := Apply(c, op, index), Track(k, nodes, op, index);
    var n := c1.nodes[|c.nodes|];
    assert n in c1.nodes && forall m :: m in c.nodes ==> m in c1.nodes;
    forall x | x in k1.live ensures x.Plain? && HasNode(c1.nodes, x) {
      if x in k.live {
        var m :| m in c.nodes && m.id == x;
        assert m in c1.nodes;
      } else {
        assert n.id == x;
      }
    }
  }

  lemma {:induction false} UnpatchedNodes(nodes: seq<Node>, op: CanvasOp)
    requires op.UpdateNode? && op.patchId.None? && op.patchType.None?
    ensures PatchAll(nodes, op) == nodes
  {
    if nodes != [] {
      UnpatchedNodes(nodes[..|nodes| - 1], op);
    }
  }

  lemma {:induction false} NoneMissing(live: set<Name>, ids: seq<Name>)
    requires MissingCount(live, ids) == 0
    ensures forall id :: id in ids ==> id in live
  {
    if ids != [] {
      NoneMissing(live, ids[..|ids| - 1]);
      assert ids == ids[..|ids| - 1] + [ids[|ids| - 1]];
    }
  }

  lemma DeleteAgrees(k: Check, c: Snapshot, nodes: seq<Node>, op: CanvasOp, index: nat)
    requires Agrees(k, c, index) && op.DeleteNode? && Ordinary(op)
    ensures Agrees(Track(k, nodes, op, index), Apply(c, op, index), index + 1)
  {
    var ids := Elements(Doomed(nodes, op));
    var k1, c1 := Track(k, nodes, op, index), Apply(c, op, index);
    assert Deleted(c.nodes, op) == ids;
    RemoveLinksKeysMatch(k.(live := k.live - ids), Touching(k.links, ids));
    forall x | x in k1.live ensures x.Plain? && HasNode(c1.nodes, x) {
      var n :| n in c.nodes && n.id == x;
      assert n in c1.nodes;
    }
  }

  lemma KeysAfterInsert(links: map<Name, Link>, id: Name, link: Link)
    requires id !in links
    ensures KeysOf(links[id := link]) == KeysOf(links) + {link.key}
  {
    var more := links[id := link];
    assert link.key == more[id].key;
    forall i | i in links ensures links[i].key in KeysOf(more) {
      assert more[i] == links[i];
    }
  }

  lemma ConnectIsTracked(k: Check, c: Snapshot, nodes: seq<Node>, op: CanvasOp, index: nat)
    requires Agrees(k, c, index) && op.ConnectNodes? && Ordinary(op) && ConnectIssues(k, op) == 0
    ensures ConnectionsTracked(Track(k, nodes, op, index), Apply(c, op, index))
  {
  }

  lemma ConnectAgrees(k: Check, c: Snapshot, nodes: seq<Node>, op: CanvasOp, index: nat)
    requires Agrees(k, c, index) && op.ConnectNodes? && Ordinary(op) && ConnectIssues(k, op) == 0
    ensures Agrees(Track(k, nodes, op, index), Apply(c, op, index), index + 1)
  {
    var id := if op.name.Some? then op.name.value else Anonymous(index);
    assert id !in k.links;
    KeysAfterInsert(k.links, id, Link(OpKey(op), Text(op.from), Text(op.to)));
    ConnectIsTracked(k, c, nodes, op, index);
  }

  lemma DisconnectAgrees(k: Check, c: Snapshot, nodes: seq<Node>, op: CanvasOp, index: nat)
    requires Agrees(k, c, index) && op.DeleteConnections? && Ordinary(op)
    ensures Agrees(Track(k, nodes, op, index), Apply(c, op, index), index + 1)
  {
    RemoveLinksKeysMatch(k, if op.all then k.links.Keys else Elements(DoomedConnections(op)));
  }

  /** The views stay in agreement through an operation reported without error. */
  lemma OpAgrees(k: Check, c: Snapshot, nodes: seq<Node>, op: CanvasOp, index: nat)
    requires Agrees(k, c, index) && Ordinary(op) && Issues(k, nodes, op) == 0
    ensures Agrees(CheckOp(k, nodes, op, index), Apply(c, op, index), index + 1)
  {
    match op
    case AddNode(_, _, _) => AddAgrees(k, c, nodes, op, index);
    case UpdateNode(_, _, _, _, _) => UnpatchedNodes(c.nodes, op);
    case DeleteNode(_, _, _) => DeleteAgrees(k, c, nodes, op, index);
    case ConnectNodes(_, _, _, _, _) => ConnectAgrees(k, c, nodes, op, index);
    case DeleteConnections(_, _, _) => DisconnectAgrees(k, c, nodes, op, index);
    case _ =>
  }

  // ---- The batch ----------------------------------------------------------------------------------------------------

  lemma NoMoreIssues(k: Check, nodes: seq<Node>, op: CanvasOp, index: nat)
    ensures CheckOp(k, nodes, op, index).issues == [] <==> k.issues == [] && Issues(k, nodes, op) == 0
  {
    assert |CheckOp(k, nodes, op, index).issues| == |k.issues| + Issues(k, nodes, op);
  }

  lemma {:induction false} CleanBefore(s: Snapshot, ops: seq<CanvasOp>, n: nat)
    requires n < |ops| && CheckUpTo(s, ops, n + 1).issues == []
    ensures CheckUpTo(s, ops, n).issues == [] && Issues(CheckUpTo(s, ops, n), s.nodes, ops[n]) == 0
  {
    NoMoreIssues(CheckUpTo(s, ops, n), s.nodes, ops[n], n);
  }

  lemma {:induction false} IssuesAccumulate(s: Snapshot, ops: seq<CanvasOp>, n: nat, m: nat)
    requires n <= m <= |ops| && CheckUpTo(s, ops, m).issues == []
    ensures CheckUpTo(s, ops, n).issues == []
    ensures n < m ==> Issues(CheckUpTo(s, ops, n), s.nodes, ops[n]) == 0
    decreases m - n
  {
    hide Issues, Track, Begin;
    if n < m {
      CleanBefore(s, ops, m - 1);
      if n < m - 1 {
        IssuesAccumulate(s, ops, n, m - 1);
      }
    }
  }

  lemma {:induction false} NextAgrees(s: Snapshot, ops: seq<CanvasOp>, n: nat, k: Check, c: Snapshot)
    requires OrdinaryBatch(ops) && Accepted(s, ops) && n < |ops| && k == CheckUpTo(s, ops, n) && Agrees(k, c, n)
    ensures Agrees(CheckOp(k, s.nodes, ops[n], n), Apply(c, ops[n], n), n + 1)
  {
    IssuesAccumulate(s, ops, n, |ops|);
    assert ops[n] in ops;
    OpAgrees(k, c, s.nodes, ops[n], n);
  }

  lemma {:induction false} BatchAgrees(s: Snapshot, ops: seq<CanvasOp>, n: nat)
    requires WellFormed(s) && OrdinaryBatch(ops) && Accepted(s, ops) && n <= |ops|
    ensures Agrees(CheckUpTo(s, ops, n), ApplyUpTo(s, ops, n), n)
  {
    if n == 0 {
      BeginAgrees(s);
    } else {
      BatchAgrees(s, ops, n - 1);
      NextAgrees(s, ops, n - 1, CheckUpTo(s, ops, n - 1), ApplyUpTo(s, ops, n - 1));
    }
  }

  /** Every node the operation refers to is there. */
  predicate TouchesOnlyPresent(c: Snapshot, nodes: seq<Node>, op: CanvasOp) {
    match op
    case UpdateNode(target, _, _, _, _) => target.Some? && HasNode(c.nodes, target.value)
    case RunGeneration(target, _) => target.Some? && HasNode(c.nodes, target.value)
    case DeleteNode(_, _, _) => forall id :: id in Doomed(nodes, op) ==> HasNode(c.nodes, id)
    case ConnectNodes(_, from, to, _, _) => from.Some? && to.Some? && HasNode(c.nodes, from.value) && HasNode(c.nodes, to.value)
    case SelectNodes(selection) => selection.Some? ==> forall id :: id in selection.value ==> HasNode(c.nodes, id)
    case _ => true
  }

  lemma AcceptedOpTouchesPresent(k: Check, c: Snapshot, nodes: seq<Node>, op: CanvasOp, index: nat)
    requires NodesAgree(k, c, index) && Issues(k, nodes, op) == 0
    ensures TouchesOnlyPresent(c, nodes, op)
  {
    match op
    case DeleteNode(_, _, _) => NoneMissing(k.live, Doomed(nodes, op));
    case SelectNodes(selection) => if selection.Some? { NoneMissing(k.live, selection.value); }
    case _ =>
  }

  /** Soundness, node by node: when the editor reaches an operation of an accepted batch, every
      node the operation refers to exists. */
  lemma {:induction false} AcceptedBatchTouchesPresent(s: Snapshot, ops: seq<CanvasOp>, i: nat)
    requires WellFormed(s) && OrdinaryBatch(ops) && Accepted(s, ops) && i < |ops|
    ensures TouchesOnlyPresent(ApplyUpTo(s, ops, i), s.nodes, ops[i])
  {
    BatchAgrees(s, ops, i);
    IssuesAccumulate(s, ops, i, |ops|);
    AcceptedOpTouchesPresent(CheckUpTo(s, ops, i), ApplyUpTo(s, ops, i), s.nodes, ops[i], i);
  }

  ghost predicate NoDangling(c: Snapshot) {
    forall e :: e in c.connections ==> HasNode(c.nodes, e.from) && HasNode(c.nodes, e.to)
  }

  lemma KeyIsNew(k: Check, c: Snapshot, op: CanvasOp, index: nat)
    requires Agrees(k, c, index) && op.ConnectNodes? && ConnectIssues(k, op) == 0
    ensures forall e :: e in c.connections ==> KeyOf(e) != OpKey(op)
  {
    forall e | e in c.connections ensures KeyOf(e) in k.keys {
      assert k.links[Tracked(e.id)].key == KeyOf(e);
    }
  }

  lemma OpKeepsUniqueKeys(k: Check, c: Snapshot, nodes: seq<Node>, op: CanvasOp, index: nat)
    requires Agrees(k, c, index) && Issues(k, nodes, op) == 0 && Unique(c.connections, KeyOf)
    ensures Unique(Apply(c, op, index).connections, KeyOf)
  {
    match op
    case DeleteNode(_, _, _) =>
      var ids := Deleted(c.nodes, op);
      FilterUnique(c.connections, (e: Connection) => e.from !in ids && e.to !in ids, KeyOf);
    case ConnectNodes(name, from, to, fromHandle, toHandle) =>
      KeyIsNew(k, c, op, index);
      if TakesEffect(c, op) {
        AppendUnique(c.connections, KeyOf, Connection(GivenOr(name, index), from.value, to.value, fromHandle, toHandle));
      }
    case DeleteConnections(all, _, _) =>
      var ids := Elements(DoomedConnections(op));
      FilterUnique(c.connections, (e: Connection) => e.id !in ids, KeyOf);
    case _ =>
  }

  lemma AgreementLeavesNoDangling(k: Check, c: Snapshot, index: nat)
    requires Agrees(k, c, index)
    ensures NoDangling(c)
  {
    forall e | e in c.connections ensures e.from in k.live && e.to in k.live {
      assert k.links[Tracked(e.id)] == LinkOf(e);
    }
  }

  lemma NewConnections(k: Check, c: Snapshot, nodes: seq<Node>, op: CanvasOp, index: nat)
    requires Issues(k, nodes, op) == 0
    ensures forall e :: e in Apply(c, op, index).connections ==> e in c.connections || e.from != e.to
  {
  }

  lemma {:induction false} NextSelfLoopsAreOld(s: Snapshot, ops: seq<CanvasOp>, n: nat, k: Check, c: Snapshot)
    requires Accepted(s, ops) && n < |ops| && k == CheckUpTo(s, ops, n)
    ensures forall e :: e in Apply(c, ops[n], n).connections && e.from == e.to ==> e in c.connections
  {
    IssuesAccumulate(s, ops, n, |ops|);
    NewConnections(k, c, s.nodes, ops[n], n);
  }

  lemma {:induction false} SelfLoopsAreOld(s: Snapshot, ops: seq<CanvasOp>, n: nat)
    requires Accepted(s, ops) && n <= |ops|
    ensures forall e :: e in ApplyUpTo(s, ops, n).connections && e.from == e.to ==> e in s.connections
  {
    if n > 0 {
      SelfLoopsAreOld(s, ops, n - 1);
      NextSelfLoopsAreOld(s, ops, n - 1, CheckUpTo(s, ops, n - 1), ApplyUpTo(s, ops, n - 1));
    }
  }

  lemma {:induction false} NextKeysUnique(s: Snapshot, ops: seq<CanvasOp>, n: nat, k: Check, c: Snapshot)
    requires WellFormed(s) && OrdinaryBatch(ops) && Accepted(s, ops) && n < |ops|
    requires k == CheckUpTo(s, ops, n) && c == ApplyUpTo(s, ops, n) && Unique(c.connections, KeyOf)
    ensures Unique(Apply(c, ops[n], n).connections, KeyOf)
  {
    BatchAgrees(s, ops, n);
    IssuesAccumulate(s, ops, n, |ops|);
    OpKeepsUniqueKeys(k, c, s.nodes, ops[n], n);
  }

  lemma {:induction false} KeysStayUnique(s: Snapshot, ops: seq<CanvasOp>, n: nat)
    requires WellFormed(s) && OrdinaryBatch(ops) && Accepted(s, ops) && n <= |ops| && Unique(s.connections, KeyOf)
    ensures Unique(ApplyUpTo(s, ops, n).connections, KeyOf)
  {
    if n > 0 {
      KeysStayUnique(s, ops, n - 1);
      NextKeysUnique(s, ops, n - 1, CheckUpTo(s, ops, n - 1), ApplyUpTo(s, ops, n - 1));
    }
  }

  /** Soundness of the graph: an accepted batch leaves no dangling connection, adds no connection
      from a node to itself, and repeats no connection unless the snapshot did; all along, the
      validator's keys are the keys of its connections. */
  lemma {:induction false} AcceptedBatchKeepsGraph(s: Snapshot, ops: seq<CanvasOp>, n: nat)
    requires WellFormed(s) && OrdinaryBatch(ops) && Accepted(s, ops) && n <= |ops|
    ensures NoDangling(ApplyUpTo(s, ops, n))
    ensures forall e :: e in ApplyUpTo(s, ops, n).connections && e.from == e.to ==> e in s.connections
    ensures Unique(s.connections, KeyOf) ==> Unique(ApplyUpTo(s, ops, n).connections, KeyOf)
    ensures KeysMatch(CheckUpTo(s, ops, n))
  {
    BatchAgrees(s, ops, n);
    AgreementLeavesNoDangling(CheckUpTo(s, ops, n), ApplyUpTo(s, ops, n), n);
    SelfLoopsAreOld(s, ops, n);
    if Unique(s.connections, KeyOf) { KeysStayUnique(s, ops, n); }
  }

  /** No accepted connection repeats one that the editor has at that moment, whatever the snapshot
      repeats. */
  lemma {:induction false} AcceptedConnectionIsNew(s: Snapshot, ops: seq<CanvasOp>, i: nat)
    requires WellFormed(s) && OrdinaryBatch(ops) && Accepted(s, ops) && i < |ops| && ops[i].ConnectNodes?
    ensures forall e :: e in ApplyUpTo(s, ops, i).connections ==> KeyOf(e) != OpKey(ops[i])
  {
    BatchAgrees(s, ops, i);
    IssuesAccumulate(s, ops, i, |ops|);
    KeyIsNew(CheckUpTo(s, ops, i), ApplyUpTo(s, ops, i), ops[i], i);
  }

  predicate IsFrame(nodes: seq<Node>, id: Name) {
    FindNode(nodes, id).Some? && FindNode(nodes, id).value.nodeType == FrameNode
  }

  /** Nothing is skipped silently, with one exception: a connection of an accepted batch takes
      effect in the editor exactly when neither end is a frame. */
  lemma {:induction false} ConnectionTakesEffectExactly(s: Snapshot, ops: seq<CanvasOp>, i: nat)
    requires WellFormed(s) && OrdinaryBatch(ops) && Accepted(s, ops) && i < |ops| && ops[i].ConnectNodes?
    ensures
      var c, op := ApplyUpTo(s, ops, i), ops[i];
      && op.from.Some? && op.to.Some?
      && (TakesEffect(c, op) <==>
            !IsFrame(c.nodes, op.from.value) && !IsFrame(c.nodes, op.to.value))
  {
    var k, c, op := CheckUpTo(s, ops, i), ApplyUpTo(s, ops, i), ops[i];
    BatchAgrees(s, ops, i);
    IssuesAccumulate(s, ops, i, |ops|);
    KeyIsNew(k, c, op, i);
    AcceptedOpTouchesPresent(k, c, s.nodes, op, i);
    forall e | e in c.connections ensures SameEdge(e, op) ==> KeyOf(e) == OpKey(op) {
    }
  }

  // ---- Why the hypotheses are needed -----------------------------------------------------------------------------------

  /** An unnamed connection overwrites a link that has the validator's own name for it; the keys
      stay the key image exactly when the lost link's key is still somebody's. */
  lemma AnonymousNameIsSafeExactly(k: Check, nodes: seq<Node>, op: CanvasOp, index: nat)
    requires op.ConnectNodes? && op.name.None? && KeysMatch(k)
    ensures KeysMatch(Track(k, nodes, op, index)) <==>
      (Anonymous(index) in k.links ==>
         || k.links[Anonymous(index)].key == OpKey(op)
         || exists id :: id in k.links && id != Anonymous(index) && k.links[id].key == k.links[Anonymous(index)].key)
  {
    var k1 := Track(k, nodes, op, index);
    assert OpKey(op) == k1.links[Anonymous(index)].key;
    forall id | id in k.links && id != Anonymous(index) ensures k.links[id].key in KeysOf(k1.links) {
      assert k1.links[id] == k.links[id];
    }
    forall id | id in k.links ensures k.links[id].key in k1.keys {
      assert k.links[id].key in KeysOf(k.links);
    }
    assert forall id :: id in k1.links ==> k1.links[id].key in k1.keys;
    if Anonymous(index) in k.links {
      var lost := k.links[Anonymous(index)].key;
      assert lost in k1.keys;
      assert lost in KeysOf(k1.links) <==> exists id :: id in k1.links && k1.links[id].key == lost;
    }
  }

  function Edge(name: Option<Name>, from: nat, to: nat): CanvasOp {
    ConnectNodes(name, Some(Plain(from)), Some(Plain(to)), None, None)
  }

  lemma NothingReported(k: Check, nodes: seq<Node>, op: CanvasOp, index: nat)
    requires k.issues == [] && Issues(k, nodes, op) == 0
    ensures CheckOp(k, nodes, op, index) == Track(k, nodes, op, index).(issues := [])
  {
  }

  lemma EdgeIsTracked(k: Check, nodes: seq<Node>, name: Option<Name>, from: nat, to: nat, index: nat)
    requires k.issues == [] && Plain(from) in k.live && Plain(to) in k.live && from != to
    requires name.Some? ==> name.value !in k.links
    requires OpKey(Edge(name, from, to)) !in k.keys
    ensures
      var op, id := Edge(name, from, to), if name.Some? then name.value else Anonymous(index);
      CheckOp(k, nodes, op, index) == k.(links := k.links[id := Link(OpKey(op), Plain(from), Plain(to))], keys := k.keys + {OpKey(op)})
  {
    NothingReported(k, nodes, Edge(name, from, to), index);
  }

  lemma KeyOutlivesLink(k: Check, nodes: seq<Node>)
    requires k.issues == [] && k.links == map[] && k.keys == {}
    requires Plain(1) in k.live && Plain(2) in k.live && Plain(3) in k.live
    ensures
      var last := CheckOp(CheckOp(k, nodes, Edge(Some(Anonymous(1)), 1, 2), 0), nodes, Edge(None, 1, 3), 1);
      last.issues == [] && !KeysMatch(last)
  {
    EdgeIsTracked(k, nodes, Some(Anonymous(1)), 1, 2, 0);
    var k1 := CheckOp(k, nodes, Edge(Some(Anonymous(1)), 1, 2), 0);
    EdgeIsTracked(k1, nodes, None, 1, 3, 1);
    var last := CheckOp(k1, nodes, Edge(None, 1, 3), 1);
    var lost := OpKey(Edge(Some(Anonymous(1)), 1, 2));
    assert lost in last.keys && last.links.Keys == {Anonymous(1)};
    assert lost !in KeysOf(last.links);
  }

  lemma ThreeNodes() returns (s: Snapshot)
    ensures WellFormed(s) && s.connections == []
    ensures Plain(1) in NodeIds(s.nodes) && Plain(2) in NodeIds(s.nodes) && Plain(3) in NodeIds(s.nodes)
  {
    s := Snapshot([Node(Plain(1), TextNode), Node(Plain(2), TextNode), Node(Plain(3), TextNode)], []);
    assert s.nodes[0] in s.nodes && s.nodes[1] in s.nodes && s.nodes[2] in s.nodes;
  }

  lemma NothingConnected(s: Snapshot)
    requires s.connections == []
    ensures Begin(s) == Check(NodeIds(s.nodes), NodeIds(s.nodes), map[], {}, [])
  {
  }

  /** An accepted batch in which it happens: the first connection is given the name the validator
      makes up for the second. */
  lemma {:induction false} AnonymousNameIsOverwritten() returns (s: Snapshot, ops: seq<CanvasOp>)
    ensures WellFormed(s) && Accepted(s, ops) && !KeysMatch(CheckUpTo(s, ops, |ops|))
  {
    s := ThreeNodes();
    ops := [Edge(Some(Anonymous(1)), 1, 2), Edge(None, 1, 3)];
    NothingConnected(s);
    KeyOutlivesLink(Begin(s), s.nodes);
    TwoSteps(s, ops);
  }

  lemma {:induction false} TwoSteps(s: Snapshot, ops: seq<CanvasOp>)
    requires |ops| >= 2
    ensures CheckUpTo(s, ops, 2) == CheckOp(CheckOp(Begin(s), s.nodes, ops[0], 0), s.nodes, ops[1], 1)
    ensures ApplyUpTo(s, ops, 2) == Apply(Apply(s, ops[0], 0), ops[1], 1)
  {
    assert CheckUpTo(s, ops, 1) == CheckOp(CheckUpTo(s, ops, 0), s.nodes, ops[0], 0);
    assert ApplyUpTo(s, ops, 1) == Apply(ApplyUpTo(s, ops, 0), ops[0], 0);
  }

  /** A deletion by type means the nodes of the snapshot to the validator and those of the moment
      to the editor: about a node that is there for both they disagree afterwards exactly when only
      one of the two finds it under the type. */
  lemma {:induction false} DeletionByTypeAgreesExactly(k: Check, c: Snapshot, nodes: seq<Node>, t: NodeType, id: Name)
    requires id in k.live && HasNode(c.nodes, id)
    ensures
      var op := DeleteNode(None, None, Some(t));
      (id in Track(k, nodes, op, 0).live <==> HasNode(Apply(c, op, 0).nodes, id))
        <==> (id in IdsOfType(nodes, t) <==> id in IdsOfType(c.nodes, t))
  {
    var op := DeleteNode(None, None, Some(t));
    var n :| n in c.nodes && n.id == id;
    assert n in Apply(c, op, 0).nodes <==> id !in Deleted(c.nodes, op);
  }

  function AddImage(id: nat): CanvasOp {
    AddNode(Some(Plain(id)), Some(ImageNode), Geometry(None, None, None, None, None))
  }

  const DELETE_IMAGES := DeleteNode(None, None, Some(ImageNode))

  lemma {:induction false} OnlyImage(id: nat)
    ensures IdsOfType([Node(Plain(id), ImageNode)], ImageNode) == [Plain(id)]
    ensures forall live: set<Name> :: Plain(id) in live ==> MissingCount(live, [Plain(id)]) == 0
  {
    assert [Node(Plain(id), ImageNode)][..0] == [];
    assert [Plain(id)][..0] == [];
  }

  lemma ValidatorKeepsImage(k: Check, nodes: seq<Node>)
    requires k.issues == [] && k.links == map[] && nodes == [Node(Plain(1), ImageNode)] && k.live == k.known == {Plain(1)}
    ensures
      var k1 := CheckOp(CheckOp(k, nodes, AddImage(2), 0), nodes, DELETE_IMAGES, 1);
      k1.issues == [] && Plain(2) in k1.live
  {
    NothingReported(k, nodes, AddImage(2), 0);
    var k1 := CheckOp(k, nodes, AddImage(2), 0);
    OnlyImage(1);
    assert Elements([Plain(1)]) == {Plain(1)};
    NothingReported(k1, nodes, DELETE_IMAGES, 1);
  }

  lemma EditorDropsImage(s: Snapshot)
    ensures !HasNode(Apply(Apply(s, AddImage(2), 0), DELETE_IMAGES, 1).nodes, Plain(2))
  {
    var c := Apply(s, AddImage(2), 0);
    assert c.nodes[..|s.nodes|] == s.nodes;
    assert Plain(2) == IdsOfType(c.nodes, ImageNode)[|IdsOfType(s.nodes, ImageNode)|];
    assert Plain(2) in Deleted(c.nodes, DELETE_IMAGES);
  }

  lemma OneImage() returns (s: Snapshot)
    ensures WellFormed(s) && s.connections == [] && s.nodes == [Node(Plain(1), ImageNode)] && NodeIds(s.nodes) == {Plain(1)}
  {
    s := Snapshot([Node(Plain(1), ImageNode)], []);
    assert s.nodes[0] in s.nodes;
  }

  lemma {:induction false} NextStep(s: Snapshot, ops: seq<CanvasOp>, n: nat)
    requires n < |ops| && CheckUpTo(s, ops, n).issues == [] && Issues(CheckUpTo(s, ops, n), s.nodes, ops[n]) == 0
    ensures CheckUpTo(s, ops, n + 1).issues == []
  {
    NothingReported(CheckUpTo(s, ops, n), s.nodes, ops[n], n);
  }

  lemma {:induction false} BatchIsAccepted(s: Snapshot, ops: seq<CanvasOp>)
    requires s.connections == [] && s.nodes == [Node(Plain(1), ImageNode)] && NodeIds(s.nodes) == {Plain(1)}
    requires |ops| == 3 && ops[0] == AddImage(2) && ops[1] == DELETE_IMAGES && ops[2] == SelectNodes(Some([Plain(2)]))
    ensures Accepted(s, ops)
  {
    NothingConnected(s);
    ValidatorKeepsImage(Begin(s), s.nodes);
    TwoSteps(s, ops);
    OnlyImage(2);
    NextStep(s, ops, 2);
  }

  lemma {:induction false} BatchMissesNode(s: Snapshot, ops: seq<CanvasOp>)
    requires |ops| == 3 && ops[0] == AddImage(2) && ops[1] == DELETE_IMAGES && ops[2] == SelectNodes(Some([Plain(2)]))
    ensures !TouchesOnlyPresent(ApplyUpTo(s, ops, 2), s.nodes, ops[2])
  {
    hide Apply, Issues, Track;
    EditorDropsImage(s);
    TwoSteps(s, ops);
    assert [Plain(2)][0] in [Plain(2)];
  }

  /** An accepted batch in which it happens: it adds an image, deletes the images, and selects the
      one it has added. */
  lemma {:induction false} DeletionByTypeDisagrees() returns (s: Snapshot, ops: seq<CanvasOp>)
    ensures WellFormed(s) && Accepted(s, ops) && |ops| == 3 && !TouchesOnlyPresent(ApplyUpTo(s, ops, 2), s.nodes, ops[2])
  {
    s := OneImage();
    ops := [AddImage(2), DELETE_IMAGES, SelectNodes(Some([Plain(2)]))];
    BatchIsAccepted(s, ops);
    BatchMissesNode(s, ops);
  }
}
