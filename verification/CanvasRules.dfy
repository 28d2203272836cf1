/** What the validator asks of each operation, and what the editor does with it, in plain terms. */
module CanvasRules {
  import opened Prelude
  import opened Lists
  import opened Canvas

  // ---- Lists of ids ------------------------------------------------------------------------------------

  predicate Distinct(ids: seq<Name>) {
    forall i, j :: 0 <= i < j < |ids| ==> ids[i] != ids[j]
  }

  lemma {:induction false} NoRepeatsExactly(ids: seq<Name>)
    ensures |Elements(ids)| <= |ids|
    ensures NoRepeats(ids) <==> Distinct(ids)
  {
    if ids != [] {
      var front, last := ids[..|ids| - 1], ids[|ids| - 1];
      NoRepeatsExactly(front);
      assert ids == front + [last];
      assert Elements(ids) == Elements(front) + {last};
      if last in front {
        var i :| 0 <= i < |front| && front[i] == last;
        assert Elements(ids) == Elements(front);
        assert ids[i] == ids[|ids| - 1];
      } else {
        assert Distinct(front) ==> Distinct(ids);
        assert Distinct(ids) ==> Distinct(front) by {
          assert forall i :: 0 <= i < |front| ==> front[i] == ids[i];
        }
      }
    }
  }

  lemma {:induction false} NoneIsMissingExactly(live: set<Name>, ids: seq<Name>)
    ensures MissingCount(live, ids) == 0 <==> forall id :: id in ids ==> id != EmptyName && id in live
  {
    if ids != [] {
      var front, last := ids[..|ids| - 1], ids[|ids| - 1];
      assert ids == front + [last];
      NoneIsMissingExactly(live, front);
      assert MissingCount(live, ids) == MissingCount(live, front) + Fault(Present(live, Some(last)));
      assert last in ids && forall id :: id in ids <==> id in front || id == last;
      if !Present(live, Some(last)) {
        assert !(last != EmptyName && last in live);
      }
    }
  }

  lemma {:induction false} NoneIsAbsentExactly(links: map<Name, Link>, ids: seq<Name>)
    ensures AbsentCount(links, ids) == 0 <==> forall id :: id in ids ==> id in links
  {
    if ids != [] {
      var front, last := ids[..|ids| - 1], ids[|ids| - 1];
      assert ids == front + [last];
      NoneIsAbsentExactly(links, front);
    }
  }

  /** Whom a deletion means: the listed nodes, else the one named, else every node of the type. */
  lemma {:induction false} DoomedExactly(nodes: seq<Node>, op: CanvasOp, id: Name)
    requires op.DeleteNode?
    ensures id in Doomed(nodes, op) <==>
      if op.nodes.Some? then id in op.nodes.value
      else if op.node.Some? then id == op.node.value
      else op.ofType.Some? && exists n :: n in nodes && n.id == id && n.nodeType == op.ofType.value
  {
    if op.ofType.Some? { OfTypeExactly(nodes, op.ofType.value, id); }
  }

  lemma {:induction false} OfTypeExactly(nodes: seq<Node>, t: NodeType, id: Name)
    ensures id in IdsOfType(nodes, t) <==> exists n :: n in nodes && n.id == id && n.nodeType == t
  {
    if nodes != [] {
      var front, last := nodes[..|nodes| - 1], nodes[|nodes| - 1];
      assert nodes == front + [last];
      OfTypeExactly(front, t, id);
      if id in IdsOfType(nodes, t) && id !in IdsOfType(front, t) {
        assert last in nodes;
      }
    }
  }

  // ---- The validator -----------------------------------------------------------------------------------------

  /** Positions are numbers, sizes are positive numbers, wherever they are given. */
  predicate SoundGeometry(g: Geometry) {
    && (g.x.Some? ==> g.x.value.Finite?) && (g.y.Some? ==> g.y.value.Finite?)
    && (g.width.Some? ==> g.width.value.Finite? && g.width.value.value > 0.0)
    && (g.height.Some? ==> g.height.value.Finite? && g.height.value.value > 0.0)
    && (g.position.Some? ==>
          && g.position.value.Some?
          && (g.position.value.value.0.Some? ==> g.position.value.value.0.value.Finite?)
          && (g.position.value.value.1.Some? ==> g.position.value.value.1.value.Finite?))
  }

  /** An addition is in order exactly when its type is supported, its geometry is sound, and its id
      was never used, not even by a node deleted earlier in the batch. */
  lemma AddIsCleanExactly(k: Check, nodes: seq<Node>, op: CanvasOp)
    requires op.AddNode?
    ensures Issues(k, nodes, op) == 0 <==>
      op.nodeType != Some(UnsupportedNode) && SoundGeometry(op.geometry) && (op.id.Some? ==> op.id.value !in k.known)
  {
  }

  /** An update may not rename or retype a node, nor set the status of a media node by hand. */
  lemma UpdateIsCleanExactly(k: Check, nodes: seq<Node>, op: CanvasOp)
    requires op.UpdateNode?
    ensures Issues(k, nodes, op) == 0 <==>
      && Present(k.live, op.target) && op.patchId.None? && op.patchType.None? && SoundGeometry(op.geometry)
      && (op.setsStatus && FindNode(nodes, op.target.value).Some? ==>
            var t := FindNode(nodes, op.target.value).value.nodeType;
            t != ImageNode && t != VideoNode && t != AudioNode)
  {
  }

  /** A generation is asked for a node that exists, in the mode of its type; text goes with scripts. */
  lemma GenerationIsCleanExactly(k: Check, nodes: seq<Node>, op: CanvasOp)
    requires op.RunGeneration?
    ensures Issues(k, nodes, op) == 0 <==>
      && Present(k.live, op.target)
      && (op.mode.Some? && FindNode(nodes, op.target.value).Some? ==>
            var t := FindNode(nodes, op.target.value).value.nodeType;
            op.mode == Some(t) || (op.mode == Some(TextNode) && t == ScriptNode))
  {
  }

  /** A deletion means somebody, nobody twice, and nobody who is not there. */
  lemma DeletionIsCleanExactly(k: Check, nodes: seq<Node>, op: CanvasOp)
    requires op.DeleteNode?
    ensures Issues(k, nodes, op) == 0 <==>
      var ids := Doomed(nodes, op);
      ids != [] && Distinct(ids) && forall id :: id in ids ==> id != EmptyName && id in k.live
  {
    NoRepeatsExactly(Doomed(nodes, op));
    NoneIsMissingExactly(k.live, Doomed(nodes, op));
  }

  /** A connection joins two different nodes that exist, under a free name, and repeats none. */
  lemma ConnectionIsCleanExactly(k: Check, nodes: seq<Node>, op: CanvasOp)
    requires op.ConnectNodes?
    ensures Issues(k, nodes, op) == 0 <==>
      && Present(k.live, op.from) && Present(k.live, op.to) && op.from != op.to
      && (op.name.Some? ==> op.name.value !in k.links)
      && Key(op.from.value, op.to.value, HandleText(op.fromHandle), HandleText(op.toHandle)) !in k.keys
  {
  }

  /** Disconnecting names all connections or some of them, not both, and those exist. */
  lemma DisconnectionIsCleanExactly(k: Check, nodes: seq<Node>, op: CanvasOp)
    requires op.DeleteConnections?
    ensures Issues(k, nodes, op) == 0 <==>
      var some := (op.one.Some? && op.one.value != EmptyName) || (op.many.Some? && op.many.value != []);
      var ids := if op.many.Some? then op.many.value else if op.one.Some? then [op.one.value] else [];
      op.all != some && Distinct(ids) && forall id :: id in ids ==> id in k.links
  {
    NoRepeatsExactly(DoomedConnections(op));
    NoneIsAbsentExactly(k.links, DoomedConnections(op));
  }

  /** A selection names nodes that exist, a viewport is given in numbers with a scale the editor
      supports, and an unknown operation is never in order. */
  lemma OtherIsCleanExactly(k: Check, nodes: seq<Node>, op: CanvasOp)
    ensures op.UnknownOp? ==> Issues(k, nodes, op) > 0
    ensures op.SelectNodes? ==>
      (Issues(k, nodes, op) == 0 <==>
        (op.selection.Some? ==> forall id :: id in op.selection.value ==> id != EmptyName && id in k.live))
    ensures op.SetViewport? ==>
      (Issues(k, nodes, op) == 0 <==>
        && op.viewport.Some?
        && var (x, y, scale) := op.viewport.value;
        && (x.Some? ==> x.value.Finite?) && (y.Some? ==> y.value.Finite?)
        && (scale.Some? ==> scale.value.Finite? && 0.05 <= scale.value.value <= 8.0))
  {
    if op.SelectNodes? && op.selection.Some? { NoneIsMissingExactly(k.live, op.selection.value); }
  }

  // ---- The editor ---------------------------------------------------------------------------------------------

  /** A new node is the last one, under its id or a made-up one, as text unless it says otherwise. */
  lemma EditorAdds(s: Snapshot, op: CanvasOp, index: nat)
    requires op.AddNode?
    ensures
      var t, n := Apply(s, op, index), |s.nodes|;
      && t.connections == s.connections && |t.nodes| == n + 1 && t.nodes[..n] == s.nodes
      && t.nodes[n].id == (if op.id.Some? && op.id.value != EmptyName then op.id.value else Generated(index))
      && t.nodes[n].nodeType == (if op.nodeType.Some? then op.nodeType.value else TextNode)
  {
  }

  lemma {:induction false} PatchAllAt(nodes: seq<Node>, op: CanvasOp, i: nat)
    requires op.UpdateNode? && i < |nodes|
    ensures |PatchAll(nodes, op)| == |nodes|
    ensures PatchAll(nodes, op)[i] == if op.target == Some(nodes[i].id) then Patched(nodes[i], op) else nodes[i]
  {
    var front := nodes[..|nodes| - 1];
    if i < |front| {
      PatchAllAt(front, op, i);
    } else if front != [] {
      PatchAllAt(front, op, 0);
    }
  }

  /** An update changes the named node alone, in its place, as far as the patch goes. */
  lemma {:induction false} EditorUpdates(s: Snapshot, op: CanvasOp, index: nat, i: nat)
    requires op.UpdateNode? && i < |s.nodes|
    ensures
      var t := Apply(s, op, index);
      && t.connections == s.connections && |t.nodes| == |s.nodes|
      && var n, m := s.nodes[i], t.nodes[i];
      if op.target == Some(n.id) && n.id != EmptyName then
        && m.id == (if op.patchId.Some? then op.patchId.value else n.id)
        && m.nodeType == (if op.patchType.Some? then op.patchType.value else n.nodeType)
      else m == n
  {
    PatchAllAt(s.nodes, op, i);
  }

  /** A deletion takes the nodes it means at that moment and every connection that touches them. */
  lemma EditorDeletes(s: Snapshot, op: CanvasOp, index: nat)
    requires op.DeleteNode?
    ensures
      var t, ids := Apply(s, op, index), Doomed(s.nodes, op);
      && (forall n :: n in t.nodes <==> n in s.nodes && n.id !in ids)
      && (forall c :: c in t.connections <==> c in s.connections && c.from !in ids && c.to !in ids)
  {
  }

  /** A connection is added, as the last one, exactly when both ends are nodes other than frames and
      no connection with the same ends and handles is there; nothing else ever changes. */
  lemma EditorConnects(s: Snapshot, op: CanvasOp, index: nat)
    requires op.ConnectNodes?
    ensures
      var t, n := Apply(s, op, index), |s.connections|;
      && t.nodes == s.nodes
      && if Connectable(s.nodes, op.from) && Connectable(s.nodes, op.to)
            && forall c :: c in s.connections && c.from == op.from.value && c.to == op.to.value ==>
                 c.fromHandle != op.fromHandle || c.toHandle != op.toHandle
         then
           && |t.connections| == n + 1 && t.connections[..n] == s.connections
           && var c := t.connections[n];
           && c.from == op.from.value && c.to == op.to.value
           && c.fromHandle == op.fromHandle && c.toHandle == op.toHandle
           && c.id == (if op.name.Some? && op.name.value != EmptyName then op.name.value else Generated(index))
         else t == s
  {
    if op.from.Some? && op.to.Some? {
      assert (exists c :: c in s.connections && SameEdge(c, op)) <==>
        !(forall c :: c in s.connections && c.from == op.from.value && c.to == op.to.value ==>
            c.fromHandle != op.fromHandle || c.toHandle != op.toHandle) by {
        forall c | c in s.connections
          ensures SameEdge(c, op) <==>
                    && c.from == op.from.value && c.to == op.to.value
                    && c.fromHandle == op.fromHandle && c.toHandle == op.toHandle
        {
        }
      }
    }
  }

  /** Disconnecting removes the named connections, or all; every other operation leaves nodes and
      connections alone. */
  lemma EditorDisconnects(s: Snapshot, op: CanvasOp, index: nat)
    ensures
      var t := Apply(s, op, index);
      && (op.DeleteConnections? ==>
            && t.nodes == s.nodes && (op.all ==> t.connections == [])
            && (!op.all ==> forall c :: c in t.connections <==>
                  c in s.connections && (if op.many.Some? then c.id !in op.many.value else op.one != Some(c.id))))
      && (op.RunGeneration? || op.SelectNodes? || op.SetViewport? || op.UnknownOp? ==> t == s)
  {
  }
}
