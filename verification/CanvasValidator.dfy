/** The validator as it runs: sets and maps updated in place, operation by operation. */
module CanvasValidator {
  import opened Prelude
  import opened Lists
  import opened Canvas

  class Validator {
    const nodes: seq<Node>
    var live: set<Name>
    var known: set<Name>
    var links: map<Name, Link>
    var keys: set<Key>
    var issues: seq<nat>

    function View(): Check
      reads this
    {
      Check(live, known, links, keys, issues)
    }

    constructor (s: Snapshot)
      ensures nodes == s.nodes && View() == Begin(s)
    {
      nodes := s.nodes;
      live, known, links, keys, issues := {}, {}, map[], {}, [];
      new;
      CollectNodes(s.nodes);
      CollectConnections(s.connections);
    }

    method CollectNodes(all: seq<Node>)
      requires known == live == {}
      modifies this`known, this`live
      ensures known == live == NodeIds(all)
    {
      for i := 0 to |all|
        invariant known == live == NodeIds(all[..i])
      {
        assert all[..i + 1][..i] == all[..i];
        known := known + {all[i].id};
        live := known;
      }
      assert all[..|all|] == all;
    }

    method CollectConnections(all: seq<Connection>)
      requires links == map[] && keys == {}
      modifies this`links, this`keys
      ensures links == SnapshotLinks(all) && keys == ConnectionKeys(all)
    {
      for i := 0 to |all|
        invariant links == SnapshotLinks(all[..i]) && keys == ConnectionKeys(all[..i])
      {
        assert all[..i + 1][..i] == all[..i];
        keys := keys + {KeyOf(all[i])};
        links := links[all[i].id := LinkOf(all[i])];
      }
      assert all[..|all|] == all;
    }

    /** One issue per id that names no live node. */
    method RequireNodes(ids: seq<Name>) returns (faults: nat)
      ensures faults == MissingCount(live, ids)
    {
      faults := 0;
      for i := 0 to |ids|
        invariant faults == MissingCount(live, ids[..i])
      {
        assert ids[..i + 1][..i] == ids[..i];
        if ids[i] == EmptyName || ids[i] !in live { faults := faults + 1; }
      }
      assert ids[..|ids|] == ids;
    }

    /** Drops one connection, and its key unless another connection has it too. */
    method RemoveConnection(id: Name)
      modifies this`links, this`keys
      ensures View() == RemoveLinks(old(View()), {id})
    {
      RemoveOne(View(), id);
      if id in links {
        var key := links[id].key;
        links := links - {id};
        if forall other :: other in links ==> links[other].key != key { keys := keys - {key}; }
      }
    }

    lemma RemoveOne(k: Check, id: Name)
      ensures id !in k.links ==> RemoveLinks(k, {id}) == k
      ensures id in k.links ==>
        RemoveLinks(k, {id}) == k.(links := k.links - {id}, keys := k.keys - ({k.links[id].key} - KeysOf(k.links - {id})))
    {
      var removed := Restrict(k.links, {id});
      if id in k.links {
        assert removed == map[id := k.links[id]];
        assert removed[id].key in KeysOf(removed);
        assert KeysOf(removed) == {k.links[id].key};
      } else {
        assert removed == map[] && k.links - {id} == k.links;
      }
    }

    lemma RemoveNone(k: Check)
      ensures RemoveLinks(k, {}) == k
    {
      assert Restrict(k.links, {}) == map[] && k.links - {} == k.links;
    }

    /** Removing connections one by one is removing them together. */
    lemma RemoveMore(k: Check, ids: set<Name>, id: Name)
      requires id !in ids
      ensures RemoveLinks(RemoveLinks(k, ids), {id}) == RemoveLinks(k, ids + {id})
    {
      var first := RemoveLinks(k, ids);
      var a, b, all := Restrict(k.links, ids), Restrict(first.links, {id}), Restrict(k.links, ids + {id});
      var rest := first.links - {id};
      assert rest == k.links - (ids + {id});
      assert forall i :: i in all ==> (i in a && a[i] == all[i]) || (i in b && b[i] == all[i]);
      assert forall i :: i in a ==> i in all && all[i] == a[i];
      assert forall i :: i in b ==> i in all && all[i] == b[i];
      assert KeysOf(all) == KeysOf(a) + KeysOf(b);
      assert forall i :: i in first.links ==> (i in b && b[i] == first.links[i]) || (i in rest && rest[i] == first.links[i]);
      assert KeysOf(first.links) <= KeysOf(b) + KeysOf(rest);
      assert forall i :: i in rest ==> i in first.links && first.links[i] == rest[i];
      assert KeysOf(rest) <= KeysOf(first.links);
    }

    method RemoveConnections(ids: set<Name>)
      modifies this`links, this`keys
      ensures View() == RemoveLinks(old(View()), ids)
    {
      var todo := ids;
      RemoveNone(View());
      assert ids - todo == {};
      while todo != {}
        invariant todo <= ids
        invariant View() == RemoveLinks(old(View()), ids - todo)
      {
        var id :| id in todo;
        RemoveMore(old(View()), ids - todo, id);
        assert ids - (todo - {id}) == (ids - todo) + {id};
        RemoveConnection(id);
        todo := todo - {id};
      }
      assert ids - {} == ids;
    }

    method CountAbsent(targets: seq<Name>) returns (faults: nat)
      ensures faults == AbsentCount(links, targets)
    {
      faults := 0;
      for i := 0 to |targets|
        invariant faults == AbsentCount(links, targets[..i])
      {
        assert targets[..i + 1][..i] == targets[..i];
        if targets[i] !in links { faults := faults + 1; }
      }
      assert targets[..|targets|] == targets;
    }

    /** Counts the errors of one operation. */
    method Judge(op: CanvasOp) returns (faults: nat)
      ensures faults == Issues(View(), nodes, op)
    {
      match op {
        case DeleteNode(_, _, _) =>
          var ids := Doomed(nodes, op);
          faults := RequireNodes(ids);
          if ids == [] { faults := faults + 1; }
          if !NoRepeats(ids) { faults := faults + 1; }
        case SelectNodes(selection) =>
          faults := 0;
          if selection.Some? { faults := RequireNodes(selection.value); }
        case DeleteConnections(all, one, many) =>
          var targets := DoomedConnections(op);
          faults := CountAbsent(targets);
          if all && (NonEmptyName(one) || NonEmptyList(many)) { faults := faults + 1; }
          if !all && !NonEmptyName(one) && !NonEmptyList(many) { faults := faults + 1; }
          if !NoRepeats(targets) { faults := faults + 1; }
        case AddNode(_, _, _) => faults := Issues(View(), nodes, op);
        case UpdateNode(_, _, _, _, _) => faults := UpdateIssues(View(), nodes, op);
        case RunGeneration(_, _) => faults := GenerationIssues(View(), nodes, op);
        case ConnectNodes(_, _, _, _, _) => faults := ConnectIssues(View(), op);
        case SetViewport(_) => faults := ViewportIssues(op);
        case UnknownOp => faults := 1;
      }
    }

    /** Updates the view for one operation. */
    method Follow(op: CanvasOp, index: nat)
      modifies this
      ensures View() == Track(old(View()), nodes, op, index)
    {
      match op {
        case AddNode(id, _, _) =>
          if id.Some? {
            known := known + {id.value};
            live := live + {id.value};
          }
        case DeleteNode(_, _, _) =>
          var ids := Elements(Doomed(nodes, op));
          live := live - ids;
          RemoveConnections(Touching(links, ids));
        case ConnectNodes(name, from, to, _, _) =>
          keys := keys + {OpKey(op)};
          links := links[if name.Some? then name.value else Anonymous(index) := Link(OpKey(op), Text(from), Text(to))];
        case DeleteConnections(all, _, _) =>
          var ids := Elements(DoomedConnections(op));
          if all { ids := links.Keys; }
          RemoveConnections(ids);
        case _ =>
      }
    }

    method ValidateOp(op: CanvasOp, index: nat)
      modifies this
      ensures View() == CheckOp(old(View()), nodes, op, index)
    {
      var faults := Judge(op);
      var reported := issues + Repeat(index, faults);
      Follow(op, index);
      issues := reported;
    }
  }

  /** `validateCanvasOps`: whether the batch is free of errors. */
  method ValidateCanvasOps(s: Snapshot, ops: seq<CanvasOp>) returns (ok: bool)
    ensures ok <==> Accepted(s, ops)
  {
    var v := new Validator(s);
    for i := 0 to |ops|
      invariant v.nodes == s.nodes && v.View() == CheckUpTo(s, ops, i)
    {
      v.ValidateOp(ops[i], i);
    }
    ok := v.issues == [];
  }
}
