/** The canvas: batches of operations, the validator that judges a batch before it is sent, and the
    editor that applies it. The two live in different programs and share no code. */
module Canvas {
  import opened Prelude
  import opened Lists

  /** Node and connection ids. `Plain` ids are the ordinary ones; `Anonymous(i)` is the text
      `__anonymous_i` under which the validator tracks the unnamed connection of operation `i`;
      `Generated(i)` is the id the editor makes up for the unnamed object of operation `i`. */
  datatype Name = EmptyName | Plain(n: nat) | Anonymous(index: nat) | Generated(step: nat)

  datatype NodeType =
    ImageNode | TextNode | ScriptNode | ConfigNode | VideoNode | AudioNode | FrameNode | UnsupportedNode

  datatype Node = Node(id: Name, nodeType: NodeType)

  /** Handles are text; an absent handle and an empty one are told apart by the editor only. */
  type Handle = Option<nat>

  const EMPTY_HANDLE := Some(0)

  datatype Connection = Connection(id: Name, from: Name, to: Name, fromHandle: Handle, toHandle: Handle)

  datatype Snapshot = Snapshot(nodes: seq<Node>, connections: seq<Connection>)

  datatype Number = Finite(value: real) | Infinite | NotANumber | NotNumeric

  datatype Geometry = Geometry(x: Option<Number>, y: Option<Number>, width: Option<Number>, height: Option<Number>,
                               position: Option<Option<(Option<Number>, Option<Number>)>>)

  datatype CanvasOp =
    | AddNode(id: Option<Name>, nodeType: Option<NodeType>, geometry: Geometry)
    | UpdateNode(target: Option<Name>, patchId: Option<Name>, patchType: Option<NodeType>, geometry: Geometry, setsStatus: bool)
    | RunGeneration(target: Option<Name>, mode: Option<NodeType>)
    | DeleteNode(node: Option<Name>, nodes: Option<seq<Name>>, ofType: Option<NodeType>)
    | ConnectNodes(name: Option<Name>, from: Option<Name>, to: Option<Name>, fromHandle: Handle, toHandle: Handle)
    | SelectNodes(selection: Option<seq<Name>>)
    | DeleteConnections(all: bool, one: Option<Name>, many: Option<seq<Name>>)
    | SetViewport(viewport: Option<(Option<Number>, Option<Number>, Option<Number>)>)
    | UnknownOp

  function NodeId(n: Node): Name { n.id }

  function ConnectionId(c: Connection): Name { c.id }

  // ---- Edge keys -----------------------------------------------------------------------------------------

  datatype Key = Key(from: Name, to: Name, fromHandle: nat, toHandle: nat)

  datatype Link = Link(key: Key, from: Name, to: Name)

  function HandleText(h: Handle): nat {
    if h.None? then 0 else h.value
  }

  /** `connectionKey`. */
  function KeyOf(c: Connection): Key {
    Key(c.from, c.to, HandleText(c.fromHandle), HandleText(c.toHandle))
  }

  function LinkOf(c: Connection): Link {
    Link(KeyOf(c), c.from, c.to)
  }

  // ---- The validator ----------------------------------------------------------------------------------------

  /** `live`: the nodes that exist at this point of the batch; `known`: every node id of the
      snapshot or of the batch so far; `links` and `keys`: the live connections and their keys. */
  datatype Check = Check(live: set<Name>, known: set<Name>, links: map<Name, Link>, keys: set<Key>, issues: seq<nat>)

  function KeysOf(links: map<Name, Link>): set<Key> {
    set id | id in links :: links[id].key
  }

  function SnapshotLinks(connections: seq<Connection>): map<Name, Link> {
    if connections == [] then map[]
    else
      var last := connections[|connections| - 1];
      SnapshotLinks(connections[..|connections| - 1])[last.id := LinkOf(last)]
  }

  function NodeIds(nodes: seq<Node>): (r: set<Name>)
    ensures forall id :: id in r <==> exists n :: n in nodes && n.id == id
  {
    if nodes == [] then {}
    else
      var front, last := nodes[..|nodes| - 1], nodes[|nodes| - 1];
      assert nodes == front + [last];
      NodeIds(front) + {last.id}
  }

  function ConnectionKeys(connections: seq<Connection>): (r: set<Key>)
    ensures forall k :: k in r <==> exists c :: c in connections && KeyOf(c) == k
  {
    if connections == [] then {}
    else
      var front, last := connections[..|connections| - 1], connections[|connections| - 1];
      assert connections == front + [last];
      ConnectionKeys(front) + {KeyOf(last)}
  }

  function Begin(s: Snapshot): Check {
    Check(NodeIds(s.nodes), NodeIds(s.nodes), SnapshotLinks(s.connections), ConnectionKeys(s.connections), [])
  }

  predicate FiniteIfGiven(v: Option<Number>) {
    v.Some? ==> v.value.Finite?
  }

  predicate PositiveIfGiven(v: Option<Number>) {
    v.Some? ==> v.value.Finite? && v.value.value > 0.0
  }

  function Fault(ok: bool): nat {
    if ok then 0 else 1
  }

  function PositionIssues(p: Option<Option<(Option<Number>, Option<Number>)>>): nat {
    if p.None? then 0
    else if p.value.None? then 1
    else Fault(FiniteIfGiven(p.value.value.0)) + Fault(FiniteIfGiven(p.value.value.1))
  }

  function GeometryIssues(g: Geometry): nat {
    Fault(FiniteIfGiven(g.x)) + Fault(FiniteIfGiven(g.y)) + PositionIssues(g.position)
    + Fault(PositiveIfGiven(g.width)) + Fault(PositiveIfGiven(g.height))
  }

  function FindNode(nodes: seq<Node>, id: Name): Option<Node> {
    First(nodes, (n: Node) => n.id == id)
  }

  predicate Present(live: set<Name>, id: Option<Name>) {
    id.Some? && id.value != EmptyName && id.value in live
  }

  function MissingCount(live: set<Name>, ids: seq<Name>): nat {
    if ids == [] then 0 else MissingCount(live, ids[..|ids| - 1]) + Fault(Present(live, Some(ids[|ids| - 1])))
  }

  function Elements(ids: seq<Name>): (r: set<Name>)
    ensures forall id :: id in r <==> id in ids
  {
    set id | id in ids
  }

  predicate NoRepeats(ids: seq<Name>) {
    |Elements(ids)| == |ids|
  }

  /** The ids a deletion names; a deletion by type names those of the snapshot. */
  function Doomed(nodes: seq<Node>, op: CanvasOp): seq<Name>
    requires op.DeleteNode?
  {
    if op.nodes.Some? then op.nodes.value
    else if op.node.Some? then [op.node.value]
    else if op.ofType.Some? then IdsOfType(nodes, op.ofType.value)
    else []
  }

  function IdsOfType(nodes: seq<Node>, t: NodeType): seq<Name> {
    if nodes == [] then []
    else
      var front, last := nodes[..|nodes| - 1], nodes[|nodes| - 1];
      IdsOfType(front, t) + (if last.nodeType == t then [last.id] else [])
  }

  function DoomedConnections(op: CanvasOp): seq<Name>
    requires op.DeleteConnections?
  {
    if op.many.Some? then op.many.value else if op.one.Some? then [op.one.value] else []
  }

  predicate NonEmptyList(ids: Option<seq<Name>>) {
    ids.Some? && ids.value != []
  }

  predicate NonEmptyName(id: Option<Name>) {
    id.Some? && id.value != EmptyName
  }

  function AbsentCount(links: map<Name, Link>, ids: seq<Name>): nat {
    if ids == [] then 0 else AbsentCount(links, ids[..|ids| - 1]) + Fault(ids[|ids| - 1] in links)
  }

  predicate IsMedia(t: NodeType) {
    t == ImageNode || t == VideoNode || t == AudioNode
  }

  predicate ModeFits(mode: NodeType, t: NodeType) {
    mode == t || (mode == TextNode && t == ScriptNode)
  }

  predicate ViewportScaleFits(k: Option<Number>) {
    k.Some? && k.value.Finite? ==> 0.05 <= k.value.value <= 8.0
  }

  function UpdateIssues(k: Check, nodes: seq<Node>, op: CanvasOp): nat
    requires op.UpdateNode?
  {
    var n := if op.target.Some? then FindNode(nodes, op.target.value) else None;
    Fault(Present(k.live, op.target))
    + Fault(op.patchId.None? && op.patchType.None?)
    + GeometryIssues(op.geometry)
    + Fault(!(n.Some? && IsMedia(n.value.nodeType) && op.setsStatus))
  }

  function GenerationIssues(k: Check, nodes: seq<Node>, op: CanvasOp): nat
    requires op.RunGeneration?
  {
    var n := if op.target.Some? then FindNode(nodes, op.target.value) else None;
    Fault(Present(k.live, op.target)) + Fault(op.mode.Some? && n.Some? ==> ModeFits(op.mode.value, n.value.nodeType))
  }

  /** What an absent id prints as; it is no id of any node. */
  function Text(id: Option<Name>): Name {
    if id.Some? then id.value else EmptyName
  }

  function OpKey(op: CanvasOp): Key
    requires op.ConnectNodes?
  {
    Key(Text(op.from), Text(op.to), HandleText(op.fromHandle), HandleText(op.toHandle))
  }

  function ConnectIssues(k: Check, op: CanvasOp): nat
    requires op.ConnectNodes?
  {
    Fault(Present(k.live, op.from)) + Fault(Present(k.live, op.to)) + Fault(op.from != op.to)
    + Fault(!(op.name.Some? && op.name.value in k.links))
    + Fault(OpKey(op) !in k.keys)
  }

  function DeletionIssues(k: Check, op: CanvasOp): nat
    requires op.DeleteConnections?
  {
    var targets := DoomedConnections(op);
    Fault(!(op.all && (NonEmptyName(op.one) || NonEmptyList(op.many))))
    + Fault(op.all || NonEmptyName(op.one) || NonEmptyList(op.many))
    + Fault(NoRepeats(targets))
    + AbsentCount(k.links, targets)
  }

  function ViewportIssues(op: CanvasOp): nat
    requires op.SetViewport?
  {
    if op.viewport.None? then 1
    else
      var v := op.viewport.value;
      Fault(FiniteIfGiven(v.0)) + Fault(FiniteIfGiven(v.1)) + Fault(FiniteIfGiven(v.2)) + Fault(ViewportScaleFits(v.2))
  }

  /** How many errors the operation is reported with. */
  function Issues(k: Check, nodes: seq<Node>, op: CanvasOp): nat {
    match op
    case AddNode(id, nodeType, geometry) =>
      Fault(nodeType != Some(UnsupportedNode)) + GeometryIssues(geometry) + Fault(!(id.Some? && id.value in k.known))
    case UpdateNode(_, _, _, _, _) => UpdateIssues(k, nodes, op)
    case RunGeneration(_, _) => GenerationIssues(k, nodes, op)
    case DeleteNode(_, _, _) =>
      var ids := Doomed(nodes, op);
      Fault(ids != []) + Fault(NoRepeats(ids)) + MissingCount(k.live, ids)
    case ConnectNodes(_, _, _, _, _) => ConnectIssues(k, op)
    case SelectNodes(selection) => if selection.Some? then MissingCount(k.live, selection.value) else 0
    case DeleteConnections(_, _, _) => DeletionIssues(k, op)
    case SetViewport(_) => ViewportIssues(op)
    case UnknownOp => 1
  }

  function Restrict(links: map<Name, Link>, ids: set<Name>): map<Name, Link> {
    map id | id in links && id in ids :: links[id]
  }

  /** `removeConnection`, for a set of them: a key goes with the last connection that has it. */
  function RemoveLinks(k: Check, ids: set<Name>): Check {
    var removed, links := Restrict(k.links, ids), k.links - ids;
    k.(links := links, keys := k.keys - (KeysOf(removed) - KeysOf(links)))
  }

  function Touching(links: map<Name, Link>, ids: set<Name>): set<Name> {
    set id | id in links && (links[id].from in ids || links[id].to in ids)
  }

  /** What the validator believes after the operation, whether it reported errors or not. */
  function Track(k: Check, nodes: seq<Node>, op: CanvasOp, index: nat): Check {
    match op
    case AddNode(id, _, _) =>
      if id.Some? then k.(live := k.live + {id.value}, known := k.known + {id.value}) else k
    case DeleteNode(_, _, _) =>
      var ids := Elements(Doomed(nodes, op));
      RemoveLinks(k.(live := k.live - ids), Touching(k.links, ids))
    case ConnectNodes(name, from, to, _, _) =>
      k.(keys := k.keys + {OpKey(op)},
         links := k.links[if name.Some? then name.value else Anonymous(index) := Link(OpKey(op), Text(from), Text(to))])
    case DeleteConnections(all, _, _) =>
      RemoveLinks(k, if all then k.links.Keys else Elements(DoomedConnections(op)))
    case _ => k
  }

  function Repeat(index: nat, times: nat): seq<nat> {
    seq(times, _ => index)
  }

  function CheckOp(k: Check, nodes: seq<Node>, op: CanvasOp, index: nat): Check {
    Track(k, nodes, op, index).(issues := k.issues + Repeat(index, Issues(k, nodes, op)))
  }

  /** The validator's view before operation `n` of the batch. */
  function CheckUpTo(s: Snapshot, ops: seq<CanvasOp>, n: nat): Check
    requires n <= |ops|
  {
    if n == 0 then Begin(s) else CheckOp(CheckUpTo(s, ops, n - 1), s.nodes, ops[n - 1], n - 1)
  }

  /** `validateCanvasOps` reports no error. */
  predicate Accepted(s: Snapshot, ops: seq<CanvasOp>) {
    CheckUpTo(s, ops, |ops|).issues == []
  }

  // ---- The editor ---------------------------------------------------------------------------------------------

  /** The ids the editor deletes: a deletion by type takes the nodes of the moment. */
  function Deleted(nodes: seq<Node>, op: CanvasOp): set<Name>
    requires op.DeleteNode?
  {
    Elements(Doomed(nodes, op))
  }

  predicate SameEdge(c: Connection, op: CanvasOp)
    requires op.ConnectNodes?
  {
    op.from == Some(c.from) && op.to == Some(c.to) && op.fromHandle == c.fromHandle && op.toHandle == c.toHandle
  }

  predicate Connectable(nodes: seq<Node>, id: Option<Name>) {
    NonEmptyName(id) && FindNode(nodes, id.value).Some? && FindNode(nodes, id.value).value.nodeType != FrameNode
  }

  predicate TakesEffect(s: Snapshot, op: CanvasOp)
    requires op.ConnectNodes?
  {
    && Connectable(s.nodes, op.from) && Connectable(s.nodes, op.to)
    && !(exists c :: c in s.connections && SameEdge(c, op))
  }

  function GivenOr(id: Option<Name>, index: nat): Name {
    if NonEmptyName(id) then id.value else Generated(index)
  }

  function Patched(n: Node, op: CanvasOp): Node
    requires op.UpdateNode?
  {
    Node(if op.patchId.Some? then op.patchId.value else n.id, if op.patchType.Some? then op.patchType.value else n.nodeType)
  }

  function PatchAll(nodes: seq<Node>, op: CanvasOp): seq<Node>
    requires op.UpdateNode?
  {
    if nodes == [] then []
    else
      var last := nodes[|nodes| - 1];
      PatchAll(nodes[..|nodes| - 1], op) + [if op.target == Some(last.id) then Patched(last, op) else last]
  }

  function DropNodes(s: Snapshot, ids: set<Name>): (r: Snapshot)
    ensures forall n :: n in r.nodes <==> n in s.nodes && n.id !in ids
    ensures forall c :: c in r.connections <==> c in s.connections && c.from !in ids && c.to !in ids
  {
    Snapshot(Filter(s.nodes, (n: Node) => n.id !in ids),
             Filter(s.connections, (c: Connection) => c.from !in ids && c.to !in ids))
  }

  function DropConnections(connections: seq<Connection>, ids: set<Name>): (r: seq<Connection>)
    ensures forall c :: c in r <==> c in connections && c.id !in ids
  {
    Filter(connections, (c: Connection) => c.id !in ids)
  }

  /** `applyCanvasAgentOps`, one operation of it, as far as nodes and connections go. */
  function Apply(s: Snapshot, op: CanvasOp, index: nat): Snapshot {
    match op
    case AddNode(id, nodeType, _) =>
      s.(nodes := s.nodes + [Node(GivenOr(id, index), if nodeType.Some? then nodeType.value else TextNode)])
    case UpdateNode(target, _, _, _, _) =>
      if NonEmptyName(target) then s.(nodes := PatchAll(s.nodes, op)) else s
    case DeleteNode(_, _, _) => DropNodes(s, Deleted(s.nodes, op))
    case ConnectNodes(name, from, to, fromHandle, toHandle) =>
      if TakesEffect(s, op)
      then s.(connections := s.connections + [Connection(GivenOr(name, index), from.value, to.value, fromHandle, toHandle)])
      else s
    case DeleteConnections(all, _, _) =>
      s.(connections := if all then [] else DropConnections(s.connections, Elements(DoomedConnections(op))))
    case _ => s
  }

  function ApplyUpTo(s: Snapshot, ops: seq<CanvasOp>, n: nat): Snapshot
    requires n <= |ops|
  {
    if n == 0 then s else Apply(ApplyUpTo(s, ops, n - 1), ops[n - 1], n - 1)
  }
}
