/** pkg/agent/service/util.go: a service received from the manager becomes steps that can be run. The inputs
    of the service are one object, into which any number of steps may come to lead. */
module FlowConvert {
  import opened Wrappers
  import opened FlowJson
  import opened FlowHeap
  import opened FlowRewrite
  import opened FlowRefs
  import opened FlowSteps
  import opened FlowExecutor

  /** The service's inputs are in memory, below everything else. */
  ghost predicate InputsAt(h: Heap, root: Node, inputs: Json) {
    Wf(h) && root in h && root.level == 0 && TreeOf(h, root) == inputs
  }

  function Places(q: Jq, h: Heap, root: Node, inputs: Json): string -> Option<Node> {
    (path: string) => Locate(q, path, h, root, inputs)
  }

  lemma PlacesAreFinds(q: Jq, h: Heap, root: Node, inputs: Json, bound: nat)
    requires LawfulJq(q) && InputsAt(h, root, inputs) && bound > 0
    ensures Finds(DeferredPass(q.lib, inputs, Places(q, h, root, inputs)), bound, h)
    ensures FindsIn(DeferredPass(q.lib, inputs, Places(q, h, root, inputs)), Reach(h, root), h)
  {
    var p := DeferredPass(q.lib, inputs, Places(q, h, root, inputs));
    forall s | p.r.isRef(s) && p.find(s).Some?
      ensures FoundOk(p, bound, h, s, p.find(s).value) && Reach(h, p.find(s).value) <= Reach(h, root)
    {
      var m := p.find(s).value;
      WalkFinds(h, root, q.place(s[|INPUTS|..], inputs).value);
      ReachStays(h, root);
      ReachGoesOn(h, root, m);
      if m != root {
        ReachIsBelow(h, root, m);
      }
    }
  }

  // ---------------------------------------------------------------- what one conversion leaves alone

  /** Only objects of one level have been written. */
  ghost predicate KeptBut(level: nat, h: Heap, h': Heap) {
    forall x :: x in h && x.level != level ==> x in h' && h'[x] == h[x]
  }

  lemma LowerIsKept(level: nat, h: Heap, h': Heap, m: Node)
    requires Wf(h) && KeptBut(level, h, h') && m in h && m.level < level
    ensures SameOn(h, h', Reach(h, m)) && TreeOf(h', m) == TreeOf(h, m) && Reach(h', m) == Reach(h, m)
  {
    ReachStays(h, m);
    forall x | x in Reach(h, m) ensures x in h && x in h' && h'[x] == h[x] {
      if x != m {
        ReachIsBelow(h, m, x);
      }
    }
    Frame(h, h', m);
  }

  lemma ServiceIsKept(level: nat, h: Heap, h': Heap, root: Node, inputs: Json)
    requires InputsAt(h, root, inputs) && KeptBut(level, h, h') && level > 0 && Wf(h')
    ensures InputsAt(h', root, inputs)
  {
    LowerIsKept(level, h, h', root);
  }

  /** A step that is only decoded: its inputs are a tree of their own, on a level of their own. */
  ghost predicate Decoded(step: Declared, h: Heap, k: nat, data: Option<Node>) {
    InputsOf(h, data) == step.data && (data.Some? ==> OwnTree(map[], WriteLevel(k) + 1, h, data.value))
  }

  lemma DecodedStays(step: Declared, h: Heap, h': Heap, k: nat, i: nat, data: Option<Node>)
    requires Wf(h) && k != i && Decoded(step, h, k, data) && KeptBut(WriteLevel(i) + 1, h, h')
    ensures Decoded(step, h', k, data)
  {
    if data.Some? {
      ReachStays(h, data.value);
      assert data.value in Reach(h, data.value);
      Frame(h, h', data.value);
      TreelikeFrame(h, h', data.value);
    }
  }

  lemma DecodedGrows(step: Declared, h: Heap, h': Heap, k: nat, data: Option<Node>)
    requires Wf(h) && Decoded(step, h, k, data) && Extended(h, h')
    ensures Decoded(step, h', k, data)
  {
    DecodedStays(step, h, h', k, k + 1, data);
  }

  /** A step that has been converted stays so. */
  lemma EarlierStays(h: Heap, h': Heap, k: nat, i: nat, data: Option<Node>)
    requires Wf(h) && k < i && Rooted(h, k, data) && KeptBut(WriteLevel(i) + 1, h, h')
    ensures Rooted(h', k, data) && InputsOf(h', data) == InputsOf(h, data)
    ensures Ready(h, k, data) ==> Ready(h', k, data)
  {
    if data.Some? {
      LowerIsKept(WriteLevel(i) + 1, h, h', data.value);
      if Ready(h, k, data) {
        SoundFrame(IsPassedRef, WriteLevel(k), h, h', data.value);
      }
    }
  }

  // ---------------------------------------------------------------- what one conversion gives

  /** The service's inputs hold no references of their own. */
  ghost predicate Clean(inputs: Json) {
    forall lib, store :: !HasRef(Passed(lib, store), inputs)
  }

  lemma InputsUnwritten(h: Heap, root: Node, inputs: Json)
    requires InputsAt(h, root, inputs) && Clean(inputs)
    ensures Unwritten(IsPassedRef, h, Reach(h, root))
  {
    var lib := Library((_: string, _: Json) => None, (_: string) => None);
    var r := Passed(lib, map[]);
    assert !HasRef(r, TreeOf(h, root));
    forall x | x in Reach(h, root) && x in h ensures !OwnRef(IsPassedRef, h[x]) {
      CleanBelow(r, h, root, x);
    }
  }

  /** The service's inputs are left as they are. */
  lemma InputsStay(p: Pass, root: Node, inputs: Json, bound: nat, h: Heap, n: Node, h': Heap)
    requires InputsAt(h, root, inputs) && Clean(inputs) && bound > 0
    requires n in h && Sound(p.r.isRef, bound, h, n) && Confined(p.r.isRef, h, n, h')
    ensures Unwritten(IsPassedRef, h', Reach(h, root))
  {
    InputsUnwritten(h, root, inputs);
    ReachStays(h, root);
    forall x | x in Reach(h, root) ensures x in h && x in h' && h'[x] == h[x] {
      if x != root {
        ReachIsBelow(h, root, x);
      }
      LowStays(p, bound, h, n, h', x);
    }
  }

  /** What then hangs on a tree is the tree, new objects and the service's inputs. */
  lemma DirtyIsHigh(e: set<Node>, i: nat, h: Heap, n: Node, h': Heap)
    requires OwnTree(map[], WriteLevel(i) + 1, h, n) && n in h' && Grew(e, h, Reach(h, n), Reach(h', n))
    requires Unwritten(IsPassedRef, h', e) && forall x :: x in h' && x !in h ==> x.level == WriteLevel(i)
    ensures forall x :: x in Reach(h', n) && x in h' && OwnRef(IsPassedRef, h'[x]) ==> x.level >= WriteLevel(i)
  {
  }

  lemma SpreadIsReady(e: set<Node>, i: nat, h: Heap, n: Node, h': Heap)
    requires OwnTree(map[], WriteLevel(i) + 1, h, n) && n in h' && Wf(h') && Spread(e, h, n, h')
    requires Unwritten(IsPassedRef, h', e) && forall x :: x in h' && x !in h ==> x.level == WriteLevel(i)
    ensures Ready(h', i, Some(n))
  {
    assert n in Reach(h, n);
    TreelikeIsApart(e, h, n);
    DirtyIsHigh(e, i, h, n, h');
    ApartIsSound(IsPassedRef, WriteLevel(i), e, h', n);
  }

  /** After the first pass over a tree of its own a step is ready for the second. */
  lemma PassedOverIsReady(p: Pass, root: Node, inputs: Json, i: nat, h: Heap, n: Node, h': Heap)
    requires InputsAt(h, root, inputs) && Clean(inputs) && OwnTree(map[], WriteLevel(i) + 1, h, n)
    requires n in h && Sound(p.r.isRef, WriteLevel(i) + 1, h, n) && Confined(p.r.isRef, h, n, h') && Wf(h')
    requires n in h' && Spread(Reach(h, root), h, n, h')
    requires forall x :: x in h' && x !in h ==> x.level == WriteLevel(i)
    ensures Ready(h', i, Some(n))
  {
    var e := Reach(h, root);
    InputsStay(p, root, inputs, WriteLevel(i) + 1, h, n, h');
    SpreadIsReady(e, i, h, n, h');
  }

  /** Inputs given as one reference are ready at once. */
  lemma TakenIsReady(q: Jq, root: Node, inputs: Json, i: nat, path: string, h: Heap, data: Option<Node>, h': Heap)
    requires LawfulJq(q) && InputsAt(h, root, inputs) && Clean(inputs) && Wf(h') && Extended(h, h')
    requires Taken(Places(q, h, root, inputs)(path), WriteLevel(i) + 1, WriteLevel(i), h, data, h')
    ensures Ready(h', i, data)
  {
    var n := data.value;
    if Places(q, h, root, inputs)(path).Some? {
      WalkFinds(h, root, q.place(path, inputs).value);
      ReachStays(h, root);
      ReachGoesOn(h, root, n);
      InputsUnwritten(h, root, inputs);
      ReachStays(h, n);
      Frame(h, h', n);
      assert Unwritten(IsPassedRef, h', Reach(h', n));
      UnwrittenIsSound(IsPassedRef, WriteLevel(i), h', n);
    } else {
      TreelikeIsSound(IsPassedRef, WriteLevel(i), h', n);
    }
  }

  lemma {:induction false} UnwrittenIsSound(isRef: string -> bool, bound: nat, h: Heap, n: Node)
    requires Wf(h) && n in h && Unwritten(isRef, h, Reach(h, n))
    ensures Sound(isRef, bound, h, n)
    decreases n.level, n.height
  {
    assert NodeOk(h, n) && n in Reach(h, n);
    forall k | k in h[n] ensures Unwritten(isRef, h, ReachIn(h, n, h[n][k])) {
      assert forall x :: x in ReachIn(h, n, h[n][k]) ==> x in Reach(h, n);
    }
    forall k | k in h[n] && h[n][k].Ref? ensures Sound(isRef, bound, h, h[n][k].node) {
      UnwrittenIsSound(isRef, bound, h, h[n][k].node);
    }
  }

  // ---------------------------------------------------------------- the loop

  /** A step after its conversion, failed or not. */
  ghost predicate Converted(q: Jq, inputs: Json, step: Declared, h: Heap, k: nat, data: Option<Node>, failed: bool) {
    var after := AfterDeferred(q.lib, step.initKey, step.data, inputs);
    && Rooted(h, k, data)
    && (failed <==> after.None?)
    && (!failed ==> after == Some(InputsOf(h, data)))
    && (!failed && Clean(inputs) ==> Ready(h, k, data))
  }

  lemma ConvertedStays(q: Jq, inputs: Json, step: Declared, h: Heap, h': Heap, k: nat, i: nat, data: Option<Node>,
                       failed: bool)
    requires Wf(h) && k < i && Converted(q, inputs, step, h, k, data, failed) && KeptBut(WriteLevel(i) + 1, h, h')
    ensures Converted(q, inputs, step, h', k, data, failed)
  {
    EarlierStays(h, h', k, i, data);
  }

  lemma PassKeeps(p: Pass, step: Declared, i: nat, h: Heap, data: Option<Node>, h': Heap, ok: bool)
    requires Decoded(step, h, i, data) && PassedOver(p, WriteLevel(i) + 1, h, data, h', ok)
    ensures KeptBut(WriteLevel(i) + 1, h, h') && Rooted(h', i, data)
  {
    if data.Some? {
      assert data.value in Reach(h, data.value);
    }
  }

  /** Fill the service's inputs into one step. */
  method ConvertStep(q: Jq, inputs: Json, ghost root: Node, step: Declared, input: FlowStepInput, i: nat,
                     objects: set<Node>, locate: string -> Option<Node>)
    returns (ok: bool, all: set<Node>)
    requires LawfulJq(q) && InputsAt(Snap(objects), root, inputs) && locate == Places(q, Snap(objects), root, inputs)
    requires input.initKey == step.initKey && Decoded(step, Snap(objects), i, input.data)
    modifies input, objects
    ensures objects <= all && fresh(all - objects) && Wf(Snap(all))
    ensures KeptBut(WriteLevel(i) + 1, old(Snap(objects)), Snap(all))
    ensures Converted(q, inputs, step, Snap(all), i, input.data, !ok)
  {
    ghost var h, data := Snap(objects), input.data;
    ghost var p := DeferredPass(q.lib, inputs, locate);
    PlacesAreFinds(q, h, root, inputs, WriteLevel(i) + 1);
    if data.Some? {
      TreelikeIsSound(HasFlowInputsExpr, WriteLevel(i) + 1, h, data.value);
    }
    ok, all := input.FindReplaceDeferredInputsFrom(q.lib, inputs, locate, objects, WriteLevel(i) + 1, WriteLevel(i),
                                                   Reach(h, root));
    ghost var now := Snap(all);
    if HasFlowInputsExpr(step.initKey) {
      if ok && Clean(inputs) {
        TakenIsReady(q, root, inputs, i, step.initKey[|INPUTS|..], h, input.data, now);
      }
    } else {
      PassKeeps(p, step, i, h, data, now, ok);
      if ok && data.Some? && Clean(inputs) {
        PassedOverIsReady(p, root, inputs, i, h, data.value, now);
      }
    }
  }

  // ---------------------------------------------------------------- the whole service

  method DecodeNext(declared: seq<Declared>, i: nat, ghost roots: seq<Option<Node>>, objects: set<Node>,
                    ghost root: Node, ghost inputs: Json) returns (input: FlowStepInput, all: set<Node>)
    requires InputsAt(Snap(objects), root, inputs) && |roots| == i < |declared|
    requires declared[i].data.Some? ==> declared[i].data.value.JObj?
    requires forall k :: 0 <= k < i ==> Decoded(declared[k], Snap(objects), k, roots[k])
    ensures objects <= all && fresh(all - objects) && InputsAt(Snap(all), root, inputs) && fresh(input)
    ensures input.initKey == declared[i].initKey
    ensures Decoded(declared[i], Snap(all), i, input.data)
    ensures forall k :: 0 <= k < i ==> Decoded(declared[k], Snap(all), k, roots[k])
  {
    ghost var h := Snap(objects);
    input, all := FlowStepInput.Decode(declared[i], objects, WriteLevel(i) + 1);
    ghost var now := Snap(all);
    forall k | 0 <= k < i ensures Decoded(declared[k], now, k, roots[k]) {
      DecodedGrows(declared[k], h, now, k, roots[k]);
    }
    ServiceIsKept(1, h, now, root, inputs);
  }

  /** Decode all steps, each onto a level of its own. */
  method DecodeSteps(declared: seq<Declared>, before: set<Node>, ghost root: Node, ghost inputs: Json)
    returns (flow: seq<FlowStep>, objects: set<Node>, ghost roots: seq<Option<Node>>)
    requires InputsAt(Snap(before), root, inputs)
    requires forall k :: 0 <= k < |declared| && declared[k].data.Some? ==> declared[k].data.value.JObj?
    ensures before <= objects && fresh(objects - before) && InputsAt(Snap(objects), root, inputs)
    ensures Bound(flow, roots, declared) && |flow| == |declared|
    ensures forall k :: 0 <= k < |flow| ==> fresh(flow[k].input)
    ensures forall k :: 0 <= k < |flow| ==> Decoded(declared[k], Snap(objects), k, roots[k])
  {
    flow, roots, objects := [], [], before;
    var i := 0;
    while i < |declared|
      invariant 0 <= i <= |declared| && |flow| == |roots| == i
      invariant before <= objects && fresh(objects - before) && InputsAt(Snap(objects), root, inputs)
      invariant Bound(flow, roots, declared)
      invariant forall k :: 0 <= k < i ==> fresh(flow[k].input)
      invariant forall k :: 0 <= k < i ==> Decoded(declared[k], Snap(objects), k, roots[k])
    {
      var input, all := DecodeNext(declared, i, roots, objects, root, inputs);
      flow, roots, objects := flow + [FlowStep(declared[i].id, input)], roots + [input.data], all;
      i := i + 1;
    }
  }

  /** The steps of a flow, what they hold, and what they were declared as. */
  ghost predicate Bound(flow: seq<FlowStep>, roots: seq<Option<Node>>, declared: seq<Declared>)
    reads set k | 0 <= k < |flow| :: flow[k].input
  {
    && |flow| == |roots| <= |declared|
    && (forall k :: 0 <= k < |flow| ==> flow[k].id == declared[k].id && flow[k].input.initKey == declared[k].initKey)
    && (forall k :: 0 <= k < |flow| ==> flow[k].input.data == roots[k])
    && (forall j, k :: 0 <= j < k < |flow| ==> flow[j].input != flow[k].input)
  }

  /** Halfway through the loop: the first `i` steps are converted. */
  ghost predicate ConvertedTo(q: Jq, inputs: Json, declared: seq<Declared>, h: Heap, roots: seq<Option<Node>>,
                              failed: set<nat>, i: nat)
    requires i <= |roots| == |declared|
  {
    && (forall k :: 0 <= k < i ==> Converted(q, inputs, declared[k], h, k, roots[k], k in failed))
    && (forall k :: i <= k < |roots| ==> Decoded(declared[k], h, k, roots[k]))
    && (forall k :: k in failed ==> k < i)
  }

  lemma OneMore(q: Jq, inputs: Json, declared: seq<Declared>, h: Heap, roots: seq<Option<Node>>, failed: set<nat>,
                i: nat, h': Heap, now: Option<Node>, ok: bool)
    requires i < |roots| == |declared| && ConvertedTo(q, inputs, declared, h, roots, failed, i)
    requires Wf(h) && KeptBut(WriteLevel(i) + 1, h, h') && Converted(q, inputs, declared[i], h', i, now, !ok)
    ensures ConvertedTo(q, inputs, declared, h', roots[i := now], if ok then failed else failed + {i}, i + 1)
  {
    forall k | 0 <= k < i ensures Converted(q, inputs, declared[k], h', k, roots[k], k in failed) {
      ConvertedStays(q, inputs, declared[k], h, h', k, i, roots[k], k in failed);
    }
    forall k | i < k < |roots| ensures Decoded(declared[k], h', k, roots[k]) {
      DecodedStays(declared[k], h, h', k, i, roots[k]);
    }
  }

  /** One turn of the loop: a step that cannot be converted is noted, and the others go on. */
  method ConvertNext(q: Jq, inputs: Json, root: Node, declared: seq<Declared>, flow: seq<FlowStep>,
                     ghost roots: seq<Option<Node>>, i: nat, before: set<nat>, objects: set<Node>)
    returns (failed: set<nat>, all: set<Node>, ghost now: seq<Option<Node>>)
    requires LawfulJq(q) && InputsAt(Snap(objects), root, inputs) && i < |flow| == |declared|
    requires Bound(flow, roots, declared)
    requires ConvertedTo(q, inputs, declared, Snap(objects), roots, before, i)
    modifies flow[i].input, objects
    ensures objects <= all && fresh(all - objects) && InputsAt(Snap(all), root, inputs) && Bound(flow, now, declared)
    ensures ConvertedTo(q, inputs, declared, Snap(all), now, failed, i + 1)
  {
    ghost var h := Snap(objects);
    var locate := Places(q, Snap(objects), root, inputs);
    var ok;
    ok, all := ConvertStep(q, inputs, root, declared[i], flow[i].input, i, objects, locate);
    OneMore(q, inputs, declared, h, roots, before, i, Snap(all), flow[i].input.data, ok);
    ServiceIsKept(WriteLevel(i) + 1, h, Snap(all), root, inputs);
    now := roots[i := flow[i].input.data];
    failed := if ok then before else before + {i};
  }

  lemma AllConverted(q: Jq, inputs: Json, declared: seq<Declared>, h: Heap, roots: seq<Option<Node>>, failed: set<nat>)
    requires Wf(h) && |roots| == |declared| && ConvertedTo(q, inputs, declared, h, roots, failed, |roots|)
    ensures failed == {} && Clean(inputs) ==> StepsOk(h, roots, 0)
  {
    forall k | 0 <= k < |roots|
      ensures Rooted(h, k, roots[k]) && (failed == {} && Clean(inputs) ==> Ready(h, k, roots[k]))
    {
      assert Converted(q, inputs, declared[k], h, k, roots[k], k in failed);
    }
  }

  /** The service as it is decoded: its inputs, and its steps beside them. */
  method DecodeService(inputs: Json, declared: seq<Declared>)
    returns (root: Node, flow: seq<FlowStep>, objects: set<Node>, ghost roots: seq<Option<Node>>)
    requires inputs.JObj?
    requires forall k :: 0 <= k < |declared| && declared[k].data.Some? ==> declared[k].data.value.JObj?
    ensures fresh(objects) && InputsAt(Snap(objects), root, inputs) && Bound(flow, roots, declared)
    ensures |flow| == |declared|
    ensures forall k :: 0 <= k < |flow| ==> fresh(flow[k].input)
    ensures forall k :: 0 <= k < |flow| ==> Decoded(declared[k], Snap(objects), k, roots[k])
  {
    root, objects := BuildInto(inputs, {}, 0);
    flow, objects, roots := DecodeSteps(declared, objects, root, inputs);
  }

  /** A V4 service from the manager: its flow, the steps that could not be converted, and the memory. */
  method ConvertService(q: Jq, inputs: Json, declared: seq<Declared>)
    returns (flow: seq<FlowStep>, failed: set<nat>, objects: set<Node>, ghost roots: seq<Option<Node>>)
    requires LawfulJq(q) && inputs.JObj?
    requires forall k :: 0 <= k < |declared| && declared[k].data.Some? ==> declared[k].data.value.JObj?
    ensures fresh(objects) && Bound(flow, roots, declared) && |flow| == |declared|
    ensures forall k :: k in failed ==> k < |declared|
    ensures forall k :: 0 <= k < |declared| ==>
              Converted(q, inputs, declared[k], Snap(objects), k, roots[k], k in failed)
    ensures failed == {} && Clean(inputs) ==> StepsOk(Snap(objects), roots, 0)
  {
    var root;
    root, flow, objects, roots := DecodeService(inputs, declared);
    failed := {};
    var i := 0;
    while i < |flow|
      invariant 0 <= i <= |flow| && fresh(objects) && InputsAt(Snap(objects), root, inputs)
      invariant Bound(flow, roots, declared) && forall k :: 0 <= k < |flow| ==> fresh(flow[k].input)
      invariant ConvertedTo(q, inputs, declared, Snap(objects), roots, failed, i)
    {
      failed, objects, roots := ConvertNext(q, inputs, root, declared, flow, roots, i, failed, objects);
      i := i + 1;
    }
    AllConverted(q, inputs, declared, Snap(objects), roots, failed);
  }
}
