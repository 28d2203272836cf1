/** The workflow generator: from a list of planned nodes to one batch of canvas operations. */
module Workflow {
  import opened Prelude
  import opened Lists
  import opened Canvas

  datatype Kind = Script | Image | CharacterCards | CharacterThreeView | Video | StoryboardVideo | Audio | OtherKind

  /** The text the node brings along for its prompt. */
  datatype Prompt = NoPrompt | BlankPrompt | GivenPrompt

  /** A planned node. Texts are opaque; `trimmed` is `ref` without surrounding space, 0 is empty. */
  datatype Plan = Plan(
    ref: nat, trimmed: nat, titled: bool, kind: Kind, prompt: Prompt,
    width: Option<real>, height: Option<real>,
    referenceRefs: seq<nat>, referenceNodes: seq<nat>, runs: bool)

  datatype Direction = Horizontal | Vertical

  datatype Input = Input(
    plans: seq<Plan>, edges: seq<(nat, nat)>, direction: Direction, gap: Option<real>, start: Option<(real, real)>, autoRun: bool)

  datatype Rect = Rect(x: real, y: real, width: real, height: real)

  // ---- Node types, sizes and places --------------------------------------------------------------------------

  /** `workflowNodeType`. */
  function TypeOf(kind: Kind): NodeType {
    match kind
    case Script => ScriptNode
    case Image => ImageNode
    case CharacterCards => ImageNode
    case CharacterThreeView => ImageNode
    case Video => VideoNode
    case StoryboardVideo => VideoNode
    case Audio => AudioNode
    case OtherKind => TextNode
  }

  /** Which kinds of plans become which nodes, seen from the node. */
  lemma NodeTypesExactly(kind: Kind)
    ensures TypeOf(kind) == ImageNode <==> kind == Image || kind == CharacterCards || kind == CharacterThreeView
    ensures TypeOf(kind) == VideoNode <==> kind == Video || kind == StoryboardVideo
    ensures TypeOf(kind) == AudioNode <==> kind == Audio
    ensures TypeOf(kind) == ScriptNode <==> kind == Script
    ensures TypeOf(kind) == TextNode <==> kind == OtherKind
  {
  }

  function DefaultSize(t: NodeType): (real, real) {
    match t
    case ImageNode => (560.0, 380.0)
    case VideoNode => (640.0, 360.0)
    case ScriptNode => (920.0, 360.0)
    case AudioNode => (340.0, 160.0)
    case _ => (420.0, 240.0)
  }

  /** `workflowNodeSize`. */
  function SizeOf(p: Plan): (r: (real, real))
    ensures r.0 > 0.0 && r.1 > 0.0
  {
    var d := DefaultSize(TypeOf(p.kind));
    (if p.width.Some? && p.width.value > 0.0 then p.width.value else d.0,
     if p.height.Some? && p.height.value > 0.0 then p.height.value else d.1)
  }

  function MaxReal(a: real, b: real): real {
    if a < b then b else a
  }

  function Gap(input: Input): (g: real)
    ensures g >= 48.0
  {
    MaxReal(48.0, if input.gap.Some? && input.gap.value != 0.0 then input.gap.value else 120.0)
  }

  function RightEdge(existing: seq<Rect>): (m: real)
    ensures m >= 0.0
    ensures forall r :: r in existing ==> r.x + r.width <= m
  {
    if existing == [] then 0.0
    else
      var front, last := existing[..|existing| - 1], existing[|existing| - 1];
      assert existing == front + [last];
      MaxReal(RightEdge(front), last.x + last.width)
  }

  function BottomEdge(existing: seq<Rect>): real {
    if existing == [] then 0.0
    else MaxReal(BottomEdge(existing[..|existing| - 1]), existing[|existing| - 1].y + existing[|existing| - 1].height)
  }

  function StartOf(input: Input, existing: seq<Rect>): (real, real) {
    if input.start.Some? then input.start.value
    else if existing == [] then (80.0, 80.0)
    else (RightEdge(existing) + 160.0, MaxReal(80.0, BottomEdge(existing) - 520.0))
  }

  /** The cursor before node `n`. */
  function Cursor(input: Input, start: (real, real), n: nat): (real, real)
    requires n <= |input.plans|
  {
    if n == 0 then start
    else
      var c, size := Cursor(input, start, n - 1), SizeOf(input.plans[n - 1]);
      match input.direction
      case Vertical => (start.0, c.1 + size.1 + Gap(input))
      case Horizontal => (c.0 + size.0 + Gap(input), start.1)
  }

  function PlaceOf(input: Input, start: (real, real), n: nat): Rect
    requires n < |input.plans|
  {
    var c, size := Cursor(input, start, n), SizeOf(input.plans[n]);
    Rect(c.0, c.1, size.0, size.1)
  }

  predicate ApartBy(a: Rect, b: Rect, distance: real) {
    || a.x + a.width + distance <= b.x || b.x + b.width + distance <= a.x
    || a.y + a.height + distance <= b.y || b.y + b.height + distance <= a.y
  }

  lemma {:induction false} CursorAdvances(input: Input, start: (real, real), i: nat, j: nat)
    requires i < j <= |input.plans|
    ensures
      var a, c := PlaceOf(input, start, i), Cursor(input, start, j);
      if input.direction == Vertical then a.y + a.height + Gap(input) <= c.1 else a.x + a.width + Gap(input) <= c.0
    decreases j
  {
    if i + 1 < j {
      CursorAdvances(input, start, i, j - 1);
    }
  }

  lemma {:induction false} CursorStaysRight(input: Input, start: (real, real), n: nat)
    requires n <= |input.plans|
    ensures start.0 <= Cursor(input, start, n).0
  {
    if n > 0 {
      CursorStaysRight(input, start, n - 1);
    }
  }

  /** Placed nodes never come closer to each other than the gap, wherever the workflow starts. */
  lemma LayoutIsDisjoint(input: Input, existing: seq<Rect>, i: nat, j: nat)
    requires i < j < |input.plans|
    ensures
      var start := StartOf(input, existing);
      ApartBy(PlaceOf(input, start, i), PlaceOf(input, start, j), Gap(input))
  {
    CursorAdvances(input, StartOf(input, existing), i, j);
  }

  /** The nodes stand in one line from the start on, each one gap behind the one before it: side by
      side at the height of the start, or one below the other at its left edge. */
  lemma {:induction false} LayoutIsALine(input: Input, existing: seq<Rect>, n: nat)
    requires n < |input.plans|
    ensures
      var start := StartOf(input, existing);
      var place := PlaceOf(input, start, n);
      && (n == 0 ==> place.x == start.0 && place.y == start.1)
      && (input.direction == Horizontal ==> place.y == start.1)
      && (input.direction == Vertical ==> place.x == start.0)
      && (n > 0 ==>
            var previous := PlaceOf(input, start, n - 1);
            && (input.direction == Horizontal ==> place.x == previous.x + previous.width + Gap(input))
            && (input.direction == Vertical ==> place.y == previous.y + previous.height + Gap(input)))
  {
  }

  /** The gap is the one asked for, at least 48, and 120 by default; an empty canvas starts at 80, 80. */
  lemma LayoutDefaults(input: Input, existing: seq<Rect>)
    ensures input.gap.None? || input.gap == Some(0.0) ==> Gap(input) == 120.0
    ensures input.gap.Some? && input.gap.value >= 48.0 ==> Gap(input) == input.gap.value
    ensures input.gap.Some? && input.gap.value != 0.0 && input.gap.value < 48.0 ==> Gap(input) == 48.0
    ensures input.start.Some? ==> StartOf(input, existing) == input.start.value
    ensures input.start.None? && existing == [] ==> StartOf(input, existing) == (80.0, 80.0)
    ensures input.start.None? && existing != [] ==> StartOf(input, existing).1 >= 80.0
  {
  }

  /** A node has the size its plan gives, as far as that is positive, and otherwise that of its type. */
  lemma SizesExactly(p: Plan)
    ensures p.width.Some? && p.width.value > 0.0 ==> SizeOf(p).0 == p.width.value
    ensures p.height.Some? && p.height.value > 0.0 ==> SizeOf(p).1 == p.height.value
    ensures p.width.None? || p.width.value <= 0.0 ==>
      SizeOf(p).0 ==
        match p.kind
        case Script => 920.0
        case Image => 560.0
        case CharacterCards => 560.0
        case CharacterThreeView => 560.0
        case Video => 640.0
        case StoryboardVideo => 640.0
        case Audio => 340.0
        case OtherKind => 420.0
    ensures p.height.None? || p.height.value <= 0.0 ==>
      SizeOf(p).1 ==
        match p.kind
        case Script => 360.0
        case Image => 380.0
        case CharacterCards => 380.0
        case CharacterThreeView => 380.0
        case Video => 360.0
        case StoryboardVideo => 360.0
        case Audio => 160.0
        case OtherKind => 240.0
  {
  }

  /** With an automatic start every placed node keeps clear of every node that is already there. */
  lemma LayoutIsClear(input: Input, existing: seq<Rect>, j: nat)
    requires j < |input.plans| && input.start.None?
    ensures forall r :: r in existing ==> ApartBy(r, PlaceOf(input, StartOf(input, existing), j), 160.0)
  {
    CursorStaysRight(input, StartOf(input, existing), j);
  }

  // ---- The checks ------------------------------------------------------------------------------------------------

  predicate HasDefaultPrompt(kind: Kind) {
    kind == CharacterCards || kind == CharacterThreeView || kind == StoryboardVideo
  }

  predicate HasPrompt(p: Plan) {
    p.prompt == GivenPrompt || (p.prompt == NoPrompt && HasDefaultPrompt(p.kind))
  }

  predicate PlanOk(p: Plan, s: Snapshot) {
    && p.trimmed != 0 && p.titled
    && (TypeOf(p.kind) == TextNode || TypeOf(p.kind) == ScriptNode || HasPrompt(p))
    && forall id :: id in p.referenceNodes ==> FindNode(s.nodes, Plain(id)).Some?
  }

  function TrimmedRef(p: Plan): nat { p.trimmed }

  predicate PlansOk(plans: seq<Plan>, s: Snapshot) {
    plans != [] && Unique(plans, TrimmedRef) && forall p :: p in plans ==> PlanOk(p, s)
  }

  // ---- Edges -------------------------------------------------------------------------------------------------------

  /** A wanted connection; an external one starts at a node of the canvas. */
  datatype Wish = Wish(from: nat, to: nat, external: bool)

  function TextKey(w: Wish): (nat, nat) { (w.from, w.to) }

  function ChainWishes(plans: seq<Plan>): seq<Wish> {
    if |plans| < 2 then []
    else ChainWishes(plans[..|plans| - 1]) + [Wish(plans[|plans| - 2].ref, plans[|plans| - 1].ref, false)]
  }

  function EdgeWishes(edges: seq<(nat, nat)>): seq<Wish> {
    if edges == [] then []
    else EdgeWishes(edges[..|edges| - 1]) + [Wish(edges[|edges| - 1].0, edges[|edges| - 1].1, false)]
  }

  function WishesTo(to: nat, froms: seq<nat>, external: bool): (r: seq<Wish>)
    ensures forall w :: w in r ==> w.to == to && w.from in froms && w.external == external
    ensures forall f :: f in froms ==> Wish(f, to, external) in r
  {
    if froms == [] then []
    else
      var front, last := froms[..|froms| - 1], froms[|froms| - 1];
      assert froms == front + [last];
      WishesTo(to, front, external) + [Wish(last, to, external)]
  }

  function ReferenceWishes(plans: seq<Plan>, external: bool): seq<Wish> {
    if plans == [] then []
    else
      var last := plans[|plans| - 1];
      ReferenceWishes(plans[..|plans| - 1], external)
      + WishesTo(last.ref, if external then last.referenceNodes else last.referenceRefs, external)
  }

  function InternalWishes(input: Input): seq<Wish> {
    (if input.edges == [] then ChainWishes(input.plans) else EdgeWishes(input.edges)) + ReferenceWishes(input.plans, false)
  }

  function AllWishes(input: Input): seq<Wish> {
    InternalWishes(input) + ReferenceWishes(input.plans, true)
  }

  lemma {:induction false} ChainExactly(plans: seq<Plan>, w: Wish)
    ensures w in ChainWishes(plans) <==>
      exists i :: 0 <= i < |plans| - 1 && w == Wish(plans[i].ref, plans[i + 1].ref, false)
  {
    if |plans| >= 2 {
      var front := plans[..|plans| - 1];
      ChainExactly(front, w);
      if w in ChainWishes(plans) && w !in ChainWishes(front) {
        assert w == Wish(plans[|plans| - 2].ref, plans[|plans| - 2 + 1].ref, false);
      }
      forall i | 0 <= i < |plans| - 1 && w == Wish(plans[i].ref, plans[i + 1].ref, false) ensures w in ChainWishes(plans) {
        if i < |front| - 1 {
          assert w == Wish(front[i].ref, front[i + 1].ref, false);
        }
      }
    }
  }

  lemma {:induction false} EdgesExactly(edges: seq<(nat, nat)>, w: Wish)
    ensures w in EdgeWishes(edges) <==> !w.external && (w.from, w.to) in edges
  {
    if edges != [] {
      var front, last := edges[..|edges| - 1], edges[|edges| - 1];
      assert edges == front + [last];
      EdgesExactly(front, w);
    }
  }

  lemma {:induction false} ReferencesExactly(plans: seq<Plan>, external: bool, w: Wish)
    ensures w in ReferenceWishes(plans, external) <==>
      && w.external == external
      && exists p :: p in plans && p.ref == w.to && w.from in (if external then p.referenceNodes else p.referenceRefs)
  {
    if plans != [] {
      var front, last := plans[..|plans| - 1], plans[|plans| - 1];
      assert plans == front + [last];
      assert last in plans;
      ReferencesExactly(front, external, w);
    }
  }

  /** Which connections a workflow wants: the listed edges, or else one from each node to the next;
      one for every reference to a planned node; and one for every reference to a node of the canvas. */
  lemma WantedExactly(input: Input, w: Wish)
    ensures w in AllWishes(input) <==>
      if w.external then exists p :: p in input.plans && p.ref == w.to && w.from in p.referenceNodes
      else
        || (input.edges != [] && (w.from, w.to) in input.edges)
        || (input.edges == [] &&
            exists i :: 0 <= i < |input.plans| - 1 && w == Wish(input.plans[i].ref, input.plans[i + 1].ref, false))
        || exists p :: p in input.plans && p.ref == w.to && w.from in p.referenceRefs
  {
    ChainExactly(input.plans, w);
    EdgesExactly(input.edges, w);
    ReferencesExactly(input.plans, false, w);
    ReferencesExactly(input.plans, true, w);
  }

  predicate KnownRef(plans: seq<Plan>, ref: nat) {
    exists p :: p in plans && p.ref == ref
  }

  /** The generator throws for a wish between planned nodes that names an unknown one. */
  predicate WishesOk(input: Input) {
    forall w :: w in InternalWishes(input) ==> KnownRef(input.plans, w.from) && KnownRef(input.plans, w.to)
  }

  predicate KeyTaken(wishes: seq<Wish>, w: Wish) {
    exists v :: v in wishes && TextKey(v) == TextKey(w)
  }

  /** One connection per pair of texts, the first one. */
  function Dedupe(wishes: seq<Wish>): (r: seq<Wish>)
    ensures forall w :: w in r ==> w in wishes
    ensures forall w :: w in wishes ==> KeyTaken(r, w)
  {
    if wishes == [] then []
    else
      var front, last := wishes[..|wishes| - 1], wishes[|wishes| - 1];
      assert wishes == front + [last];
      var kept := Dedupe(front);
      if KeyTaken(front, last) then kept
      else
        assert forall w :: w in kept ==> w in kept + [last];
        assert last in kept + [last];
        kept + [last]
  }

  // ---- The batch -----------------------------------------------------------------------------------------------------

  /** The made-up ids, by position: different, and no ids of nodes of the canvas. */
  predicate NewNames(ids: seq<Name>, input: Input, s: Snapshot) {
    && |ids| == |input.plans|
    && (forall i :: 0 <= i < |ids| ==> ids[i].Plain? && ids[i] !in NodeIds(s.nodes))
    && (forall i, j :: 0 <= i < j < |ids| ==> ids[i] != ids[j])
  }

  /** Not even a dangling connection of the canvas mentions one of them. */
  predicate FreshIds(ids: seq<Name>, input: Input, s: Snapshot) {
    NewNames(ids, input, s) && forall c :: c in s.connections ==> c.to !in ids
  }

  function IdOf(plans: seq<Plan>, ids: seq<Name>, ref: nat): (r: Name)
    requires |ids| == |plans| && KnownRef(plans, ref)
    ensures exists i :: 0 <= i < |plans| && plans[i].ref == ref && ids[i] == r
  {
    var i := |plans| - 1;
    if plans[i].ref == ref then ids[i]
    else
      var p :| p in plans && p.ref == ref;
      assert plans == plans[..i] + [plans[i]];
      assert p in plans[..i];
      IdOf(plans[..i], ids[..i], ref)
  }

  function AddOf(input: Input, ids: seq<Name>, start: (real, real), n: nat): CanvasOp
    requires |ids| == |input.plans| && n < |ids|
  {
    var r := PlaceOf(input, start, n);
    AddNode(Some(ids[n]), Some(TypeOf(input.plans[n].kind)),
            Geometry(None, None, Some(Finite(r.width)), Some(Finite(r.height)),
                     Some(Some((Some(Finite(r.x)), Some(Finite(r.y)))))))
  }

  function AddOps(input: Input, ids: seq<Name>, start: (real, real), n: nat): (ops: seq<CanvasOp>)
    requires |ids| == |input.plans| && n <= |ids|
    ensures |ops| == n
  {
    if n == 0 then [] else AddOps(input, ids, start, n - 1) + [AddOf(input, ids, start, n - 1)]
  }

  predicate Resolvable(plans: seq<Plan>, w: Wish) {
    KnownRef(plans, w.to) && (w.external || KnownRef(plans, w.from))
  }

  function ConnectOf(plans: seq<Plan>, ids: seq<Name>, w: Wish): CanvasOp
    requires |ids| == |plans| && Resolvable(plans, w)
  {
    ConnectNodes(None, Some(if w.external then Plain(w.from) else IdOf(plans, ids, w.from)), Some(IdOf(plans, ids, w.to)),
                 None, None)
  }

  function ConnectOps(plans: seq<Plan>, ids: seq<Name>, wishes: seq<Wish>): (ops: seq<CanvasOp>)
    requires |ids| == |plans| && forall w :: w in wishes ==> Resolvable(plans, w)
    ensures |ops| == |wishes|
  {
    if wishes == [] then []
    else
      var front, last := wishes[..|wishes| - 1], wishes[|wishes| - 1];
      assert wishes == front + [last];
      ConnectOps(plans, ids, front) + [ConnectOf(plans, ids, last)]
  }

  /** The connections of a list of wishes. */
  function Wired(plans: seq<Plan>, ids: seq<Name>, wishes: seq<Wish>): seq<CanvasOp>
    requires |ids| == |plans| && forall w :: w in wishes ==> Resolvable(plans, w)
  {
    ConnectOps(plans, ids, Dedupe(wishes))
  }

  predicate Runs(input: Input, p: Plan) {
    IsMedia(TypeOf(p.kind)) && (input.autoRun || p.runs)
  }

  function RunOps(input: Input, ids: seq<Name>, n: nat): seq<CanvasOp>
    requires |ids| == |input.plans| && n <= |ids|
  {
    if n == 0 then []
    else
      RunOps(input, ids, n - 1)
      + (if Runs(input, input.plans[n - 1])
         then [RunGeneration(Some(ids[n - 1]), Some(TypeOf(input.plans[n - 1].kind)))] else [])
  }

  lemma {:induction false} ReferencesResolve(plans: seq<Plan>, external: bool)
    ensures forall w :: w in ReferenceWishes(plans, external) ==> KnownRef(plans, w.to) && w.external == external
  {
    if plans != [] {
      var front, last := plans[..|plans| - 1], plans[|plans| - 1];
      assert plans == front + [last];
      ReferencesResolve(front, external);
      assert last in plans;
      forall w | w in ReferenceWishes(front, external) ensures KnownRef(plans, w.to) {
        var p :| p in front && p.ref == w.to;
        assert p in plans;
      }
    }
  }

  lemma {:induction false} ChainIsInternal(plans: seq<Plan>)
    ensures forall w :: w in ChainWishes(plans) ==> !w.external
  {
    if |plans| >= 2 { ChainIsInternal(plans[..|plans| - 1]); }
  }

  lemma {:induction false} EdgesAreInternal(edges: seq<(nat, nat)>)
    ensures forall w :: w in EdgeWishes(edges) ==> !w.external
  {
    if edges != [] { EdgesAreInternal(edges[..|edges| - 1]); }
  }

  lemma InternalAreInternal(input: Input)
    ensures forall w :: w in InternalWishes(input) ==> !w.external
  {
    ChainIsInternal(input.plans);
    EdgesAreInternal(input.edges);
    ReferencesResolve(input.plans, false);
  }

  lemma WishesResolve(input: Input)
    requires WishesOk(input)
    ensures forall w :: w in AllWishes(input) ==> Resolvable(input.plans, w)
  {
    ReferencesResolve(input.plans, true);
  }

  /** What `workflowOps` returns when it does not throw. */
  function Batch(input: Input, existing: seq<Rect>, ids: seq<Name>): seq<CanvasOp>
    requires |ids| == |input.plans| && WishesOk(input)
  {
    WishesResolve(input);
    AddOps(input, ids, StartOf(input, existing), |ids|)
    + Wired(input.plans, ids, AllWishes(input))
    + [SelectNodes(Some(ids))]
    + RunOps(input, ids, |ids|)
  }

  /** `workflowOps`: `None` when it throws. */
  function WorkflowOps(input: Input, s: Snapshot, existing: seq<Rect>, ids: seq<Name>): Option<seq<CanvasOp>>
    requires |ids| == |input.plans|
  {
    if PlansOk(input.plans, s) && WishesOk(input) then Some(Batch(input, existing, ids)) else None
  }

  lemma {:induction false} AddsExactly(input: Input, ids: seq<Name>, start: (real, real), n: nat, i: nat)
    requires |ids| == |input.plans| && i < n <= |ids|
    ensures AddOps(input, ids, start, n)[i] == AddOf(input, ids, start, i)
  {
    if i < n - 1 {
      AddsExactly(input, ids, start, n - 1, i);
    }
  }

  /** The batch begins with the planned nodes, in order, each under its id, as what its kind says, and
      where the layout puts it; it creates nothing else and deletes and renames nothing, and it selects
      the new nodes. */
  lemma {:induction false} BatchIsAsPlanned(input: Input, existing: seq<Rect>, ids: seq<Name>, i: nat)
    requires |ids| == |input.plans| && WishesOk(input)
    ensures
      var ops, n := Batch(input, existing, ids), |ids|;
      && n <= |ops| && SelectNodes(Some(ids)) in ops
      && (i < n ==>
            var r := PlaceOf(input, StartOf(input, existing), i);
            && ops[i].AddNode? && ops[i].id == Some(ids[i]) && ops[i].nodeType == Some(TypeOf(input.plans[i].kind))
            && ops[i].geometry.position == Some(Some((Some(Finite(r.x)), Some(Finite(r.y)))))
            && ops[i].geometry.width == Some(Finite(r.width)) && ops[i].geometry.height == Some(Finite(r.height)))
      && (n <= i < |ops| ==> ops[i].ConnectNodes? || ops[i].RunGeneration? || ops[i] == SelectNodes(Some(ids)))
  {
    hide AddOps, ConnectOps, RunOps, Dedupe, AllWishes, InternalWishes, KnownRef;
    WishesResolve(input);
    var start, wishes := StartOf(input, existing), Dedupe(AllWishes(input));
    var adds, wires, runs := AddOps(input, ids, start, |ids|), ConnectOps(input.plans, ids, wishes), RunOps(input, ids, |ids|);
    var ops := Batch(input, existing, ids);
    if i < |ops| { Parts(adds, wires, SelectNodes(Some(ids)), runs, i); }
    Parts(adds, wires, SelectNodes(Some(ids)), runs, |adds| + |wires|);
    assert ops[|adds| + |wires|] == SelectNodes(Some(ids));
    if i < |ids| {
      AddsExactly(input, ids, start, |ids|, i);
    } else if i < |adds| + |wires| {
      ConnectsOnly(input.plans, ids, wishes, i - |adds|);
    } else if |adds| + |wires| < i < |ops| {
      RunsOnly(input, ids, |ids|, i - |adds| - |wires| - 1);
    }
  }

  lemma Parts<T>(a: seq<T>, b: seq<T>, x: T, c: seq<T>, i: nat)
    requires i < |a| + |b| + 1 + |c|
    ensures
      (a + b + [x] + c)[i] ==
        if i < |a| then a[i] else if i < |a| + |b| then b[i - |a|] else if i == |a| + |b| then x else c[i - |a| - |b| - 1]
  {
  }

  lemma {:induction false} ConnectsOnly(plans: seq<Plan>, ids: seq<Name>, wishes: seq<Wish>, i: nat)
    requires |ids| == |plans| && i < |wishes| && forall w :: w in wishes ==> Resolvable(plans, w)
    ensures ConnectOps(plans, ids, wishes)[i].ConnectNodes?
  {
    var front, last := wishes[..|wishes| - 1], wishes[|wishes| - 1];
    assert wishes == front + [last];
    if i < |front| {
      ConnectsOnly(plans, ids, front, i);
    }
  }

  lemma {:induction false} RunsOnly(input: Input, ids: seq<Name>, n: nat, i: nat)
    requires |ids| == |input.plans| && n <= |ids| && i < |RunOps(input, ids, n)|
    ensures RunOps(input, ids, n)[i].RunGeneration?
  {
    if n > 0 && i < |RunOps(input, ids, n - 1)| {
      RunsOnly(input, ids, n - 1, i);
    }
  }
}
