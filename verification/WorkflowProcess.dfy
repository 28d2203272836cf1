/** The workflow generator as it runs: loops over the planned nodes with a moving cursor, and a set
    of the pairs already connected. */
module WorkflowProcess {
  import opened Prelude
  import opened Lists
  import opened Canvas
  import opened Workflow

  class Generator {
    const input: Input
    const ids: seq<Name>
    var byRef: map<nat, Name>
    var ops: seq<CanvasOp>
    var keys: set<(nat, nat)>

    constructor (input: Input, ids: seq<Name>)
      ensures this.input == input && this.ids == ids && ops == []
    {
      this.input, this.ids := input, ids;
      byRef, ops, keys := map[], [], {};
    }

    /** The checks of the first loop: false when one of them throws. */
    method CheckPlans(s: Snapshot) returns (ok: bool)
      ensures ok <==> PlansOk(input.plans, s)
    {
      if input.plans == [] { return false; }
      var refs: set<nat> := {};
      for i := 0 to |input.plans|
        invariant Unique(input.plans[..i], TrimmedRef) && forall p :: p in input.plans[..i] ==> PlanOk(p, s)
        invariant forall t :: t in refs <==> exists p :: p in input.plans[..i] && p.trimmed == t
      {
        var p := input.plans[i];
        assert input.plans[..i + 1] == input.plans[..i] + [p];
        if !PlanOk(p, s) || p.trimmed in refs {
          NotUnique(input.plans, i, s);
          return false;
        }
        AppendUnique(input.plans[..i], TrimmedRef, p);
        refs := refs + {p.trimmed};
      }
      assert input.plans[..|input.plans|] == input.plans;
      return true;
    }

    lemma {:induction false} NotUnique(plans: seq<Plan>, i: nat, s: Snapshot)
      requires i < |plans|
      requires !PlanOk(plans[i], s) || exists p :: p in plans[..i] && p.trimmed == plans[i].trimmed
      ensures !PlansOk(plans, s)
      decreases |plans|
    {
      var front := plans[..|plans| - 1];
      if i < |front| {
        assert front[..i] == plans[..i];
        NotUnique(front, i, s);
        assert forall p :: p in front ==> p in plans;
      } else {
        assert plans[i] in plans;
      }
    }

    ghost predicate Mapped()
      reads this`byRef
    {
      && |ids| == |input.plans|
      && (forall ref :: ref in byRef <==> KnownRef(input.plans, ref))
      && (forall ref :: ref in byRef ==> byRef[ref] == IdOf(input.plans, ids, ref))
    }

    /** Of several nodes with one reference the last one counts. */
    lemma {:induction false} LastRefCounts(i: nat, ref: nat)
      requires i < |ids| == |input.plans|
      ensures KnownRef(input.plans[..i + 1], ref) <==> KnownRef(input.plans[..i], ref) || ref == input.plans[i].ref
      ensures KnownRef(input.plans[..i + 1], ref) ==>
        IdOf(input.plans[..i + 1], ids[..i + 1], ref)
          == if ref == input.plans[i].ref then ids[i] else IdOf(input.plans[..i], ids[..i], ref)
    {
      var p := input.plans[i];
      assert input.plans[..i + 1] == input.plans[..i] + [p] && input.plans[..i + 1][..i] == input.plans[..i];
      assert ids[..i + 1][..i] == ids[..i];
      assert p in input.plans[..i + 1];
    }

    /** The map is right for the first `i` nodes. */
    ghost predicate MapsRefs(m: map<nat, Name>, i: nat)
      requires i <= |ids| == |input.plans|
    {
      && (forall ref :: ref in m <==> KnownRef(input.plans[..i], ref))
      && (forall ref :: ref in m ==> m[ref] == IdOf(input.plans[..i], ids[..i], ref))
    }

    lemma MapsOneMore(m: map<nat, Name>, i: nat)
      requires i < |ids| == |input.plans| && MapsRefs(m, i)
      ensures MapsRefs(m[input.plans[i].ref := ids[i]], i + 1)
    {
      forall ref: nat { LastRefCounts(i, ref); }
    }

    method MapRefs()
      requires |ids| == |input.plans|
      modifies this`byRef
      ensures Mapped()
    {
      byRef := map[];
      for i := 0 to |ids|
        invariant MapsRefs(byRef, i)
      {
        MapsOneMore(byRef, i);
        byRef := byRef[input.plans[i].ref := ids[i]];
      }
      assert input.plans[..|ids|] == input.plans && ids[..|ids|] == ids;
    }

    /** One node after the other, with the cursor moving right or down. */
    method PlaceNodes(existing: seq<Rect>)
      requires |ids| == |input.plans|
      modifies this`ops
      ensures ops == AddOps(input, ids, StartOf(input, existing), |ids|)
    {
      var start := StartOf(input, existing);
      var cursor := start;
      ops := [];
      for i := 0 to |ids|
        invariant cursor == Cursor(input, start, i) && ops == AddOps(input, ids, start, i)
      {
        var size := SizeOf(input.plans[i]);
        ops := ops + [AddNode(Some(ids[i]), Some(TypeOf(input.plans[i].kind)),
                              Geometry(None, None, Some(Finite(size.0)), Some(Finite(size.1)),
                                       Some(Some((Some(Finite(cursor.0)), Some(Finite(cursor.1)))))))];
        cursor := if input.direction == Vertical then (start.0, cursor.1 + size.1 + Gap(input))
                  else (cursor.0 + size.0 + Gap(input), start.1);
      }
    }

    function TextKeys(wishes: seq<Wish>): set<(nat, nat)> {
      set w | w in wishes :: TextKey(w)
    }

    predicate AllResolve(wishes: seq<Wish>) {
      forall w :: w in wishes ==> Resolvable(input.plans, w)
    }

    /** A further wish adds a connection unless its pair is taken. */
    lemma WireOneMore(wishes: seq<Wish>, w: Wish)
      requires |ids| == |input.plans| && AllResolve(wishes) && Resolvable(input.plans, w)
      ensures AllResolve(wishes + [w])
      ensures TextKeys(wishes + [w]) == TextKeys(wishes) + {TextKey(w)}
      ensures Wired(input.plans, ids, wishes + [w]) == Wired(input.plans, ids, wishes)
        + (if TextKey(w) in TextKeys(wishes) then [] else [ConnectOf(input.plans, ids, w)])
    {
      assert (wishes + [w])[..|wishes|] == wishes;
      assert KeyTaken(wishes, w) <==> TextKey(w) in TextKeys(wishes);
      assert forall v :: v in wishes + [w] <==> v in wishes || v == w;
      if !KeyTaken(wishes, w) {
        ghost var kept := Dedupe(wishes) + [w];
        assert kept[..|kept| - 1] == Dedupe(wishes);
      }
    }

    /** The body of the three connecting loops; false when it throws. */
    method Connect(w: Wish) returns (ok: bool)
      requires Mapped() && (w.external ==> KnownRef(input.plans, w.to))
      modifies this`ops, this`keys
      ensures ok <==> Resolvable(input.plans, w)
      ensures ok ==> keys == old(keys) + {TextKey(w)}
      ensures ok ==> ops == old(ops) + (if TextKey(w) in old(keys) then [] else [ConnectOf(input.plans, ids, w)])
    {
      if !w.external && (w.from !in byRef || w.to !in byRef) { return false; }
      if (w.from, w.to) !in keys {
        keys := keys + {(w.from, w.to)};
        ops := ops + [ConnectNodes(None, Some(if w.external then Plain(w.from) else byRef[w.from]), Some(byRef[w.to]), None, None)];
      }
      return true;
    }

    /** `made` and `taken` are what the wishes seen so far come to. */
    ghost predicate Connected(seen: seq<Wish>, before: seq<CanvasOp>, made: seq<CanvasOp>, taken: set<(nat, nat)>)
      requires |ids| == |input.plans|
    {
      AllResolve(seen) && taken == TextKeys(seen) && made == before + Wired(input.plans, ids, seen)
    }

    lemma NothingConnected(before: seq<CanvasOp>)
      requires |ids| == |input.plans|
      ensures Connected([], before, before, {})
    {
    }

    method ConnectNext(ghost seen: seq<Wish>, ghost before: seq<CanvasOp>, w: Wish) returns (ok: bool)
      requires Mapped() && Connected(seen, before, ops, keys) && (w.external ==> KnownRef(input.plans, w.to))
      modifies this`ops, this`keys
      ensures ok <==> Resolvable(input.plans, w)
      ensures ok ==> Connected(seen + [w], before, ops, keys)
    {
      ghost var wired := Wired(input.plans, ids, seen);
      ok := Connect(w);
      if ok {
        WireOneMore(seen, w);
        Append(before, wired, if TextKey(w) in TextKeys(seen) then [] else [ConnectOf(input.plans, ids, w)]);
      }
    }

    lemma Append(a: seq<CanvasOp>, b: seq<CanvasOp>, c: seq<CanvasOp>)
      ensures a + b + c == a + (b + c)
    {
    }

    /** References to the canvas end at planned nodes. */
    predicate ExternalsEndHere(wishes: seq<Wish>) {
      forall w :: w in wishes && w.external ==> KnownRef(input.plans, w.to)
    }

    lemma Refuted(wishes: seq<Wish>, i: nat)
      requires i < |wishes| && !Resolvable(input.plans, wishes[i])
      ensures !AllResolve(wishes)
    {
      assert wishes[i] in wishes;
    }

    lemma EndsHere(wishes: seq<Wish>, i: nat)
      requires i < |wishes| && ExternalsEndHere(wishes)
      ensures wishes[i].external ==> KnownRef(input.plans, wishes[i].to)
    {
      assert wishes[i] in wishes;
    }

    /** The three loops, one after the other. */
    method ConnectAll(wishes: seq<Wish>) returns (ok: bool)
      requires Mapped() && keys == {} && ExternalsEndHere(wishes)
      modifies this`ops, this`keys
      ensures ok <==> AllResolve(wishes)
      ensures ok ==> ops == old(ops) + Wired(input.plans, ids, wishes)
    {
      hide Wired;
      ghost var seen: seq<Wish> := [];
      NothingConnected(ops);
      for i := 0 to |wishes|
        invariant seen == wishes[..i] && Connected(seen, old(ops), ops, keys)
      {
        EndsHere(wishes, i);
        ok := ConnectNext(seen, old(ops), wishes[i]);
        if !ok {
          Refuted(wishes, i);
          return;
        }
        seen := seen + [wishes[i]];
      }
      assert seen == wishes;
      ok := true;
    }

    /** Asks for the generation of every media node that is to run. */
    method RunNodes()
      requires |ids| == |input.plans|
      modifies this`ops
      ensures ops == old(ops) + RunOps(input, ids, |ids|)
    {
      for i := 0 to |ids|
        invariant ops == old(ops) + RunOps(input, ids, i)
      {
        if Runs(input, input.plans[i]) {
          ops := ops + [RunGeneration(Some(ids[i]), Some(TypeOf(input.plans[i].kind)))];
        }
      }
    }

    lemma WishesOkExactly()
      ensures WishesOk(input) <==> AllResolve(AllWishes(input))
      ensures ExternalsEndHere(AllWishes(input))
    {
      InternalAreInternal(input);
      ReferencesResolve(input.plans, true);
      assert forall w :: w in InternalWishes(input) ==> w in AllWishes(input);
    }

    /** `workflowOps`. */
    method Generate(s: Snapshot, existing: seq<Rect>) returns (result: Option<seq<CanvasOp>>)
      requires |ids| == |input.plans|
      modifies this
      ensures result == WorkflowOps(input, s, existing, ids)
    {
      var ok := CheckPlans(s);
      if !ok { return None; }
      MapRefs();
      PlaceNodes(existing);
      keys := {};
      WishesOkExactly();
      ok := ConnectAll(AllWishes(input));
      if !ok { return None; }
      ops := ops + [SelectNodes(Some(ids))];
      RunNodes();
      return Some(ops);
    }
  }
}
