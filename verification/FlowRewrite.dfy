/** pkg/agent/service/flow.go: the passes that replace references in place, in objects that may be shared. */
module FlowRewrite {
  import opened Wrappers
  import opened FlowJson
  import opened FlowHeap

  // ---------------------------------------------------------------- what a pass may write

  predicate IsRefSlot(isRef: string -> bool, v: Value) {
    v.Scalar? && v.json.JStr? && isRef(v.json.s)
  }

  /** The object itself holds a reference, not only objects below it. */
  ghost predicate OwnRef(isRef: string -> bool, contents: Contents) {
    exists k :: k in contents && IsRefSlot(isRef, contents[k])
  }

  /** Objects that a pass from `n` may have to write: they are at `bound` or above, and no two slots of
      one object lead to the same one of them. Everything else may be shared. */
  ghost predicate Sound(isRef: string -> bool, bound: nat, h: Heap, n: Node)
    requires n in h
    decreases n.level, n.height
  {
    && (OwnRef(isRef, h[n]) ==> n.level >= bound)
    && (forall k :: k in h[n] && h[n][k].Ref? && Below(h[n][k].node, n) && h[n][k].node in h ==>
          Sound(isRef, bound, h, h[n][k].node))
    && (forall k, m {:trigger ReachIn(h, n, h[n][k]), ReachIn(h, n, h[n][m])} ::
          k in h[n] && m in h[n] && k != m ==>
          Unwritten(isRef, h, ReachIn(h, n, h[n][k]) * ReachIn(h, n, h[n][m])))
  }

  ghost predicate Unwritten(isRef: string -> bool, h: Heap, xs: set<Node>) {
    forall x :: x in xs && x in h ==> !OwnRef(isRef, h[x])
  }

  lemma {:induction false} WrittenIsHigh(isRef: string -> bool, bound: nat, h: Heap, n: Node, x: Node)
    requires Wf(h) && n in h && Sound(isRef, bound, h, n) && x in Reach(h, n) && x in h && OwnRef(isRef, h[x])
    ensures x.level >= bound
    decreases n.level, n.height
  {
    if x != n {
      assert NodeOk(h, n);
      var k :| k in h[n] && x in ReachIn(h, n, h[n][k]);
      WrittenIsHigh(isRef, bound, h, h[n][k].node, x);
    }
  }

  lemma {:induction false} SoundFrame(isRef: string -> bool, bound: nat, h: Heap, h': Heap, n: Node)
    requires Wf(h) && n in h && n in h' && Sound(isRef, bound, h, n) && SameOn(h, h', Reach(h, n))
    ensures Sound(isRef, bound, h', n)
    decreases n.level, n.height
  {
    assert n in Reach(h, n) && NodeOk(h, n);
    forall k | k in h[n] ensures ReachIn(h', n, h[n][k]) == ReachIn(h, n, h[n][k]) {
      FrameIn(h, h', n, k);
    }
    forall k | k in h[n] && h[n][k].Ref? && Below(h[n][k].node, n) && h[n][k].node in h'
      ensures Sound(isRef, bound, h', h[n][k].node)
    {
      assert forall x :: x in Reach(h, h[n][k].node) ==> x in ReachIn(h, n, h[n][k]);
      SoundFrame(isRef, bound, h, h', h[n][k].node);
    }
    forall k, m | k in h[n] && m in h[n] && k != m
      ensures Unwritten(isRef, h', ReachIn(h', n, h[n][k]) * ReachIn(h', n, h[n][m]))
    {
      assert Unwritten(isRef, h, ReachIn(h, n, h[n][k]) * ReachIn(h, n, h[n][m]));
    }
  }

  /** A tree on one level may be written from there. */
  lemma {:induction false} TreelikeIsSound(isRef: string -> bool, level: nat, h: Heap, n: Node)
    requires n in h && Treelike(h, n) && forall x :: x in Reach(h, n) ==> x.level >= level
    ensures Sound(isRef, level, h, n)
    decreases n.level, n.height
  {
    assert n in Reach(h, n);
    forall k | k in h[n] && h[n][k].Ref? && Below(h[n][k].node, n) && h[n][k].node in h
      ensures Sound(isRef, level, h, h[n][k].node)
    {
      assert forall x :: x in Reach(h, h[n][k].node) ==> x in ReachIn(h, n, h[n][k]);
      TreelikeIsSound(isRef, level, h, h[n][k].node);
    }
    forall k, m | k in h[n] && m in h[n] && k != m
      ensures Unwritten(isRef, h, ReachIn(h, n, h[n][k]) * ReachIn(h, n, h[n][m]))
    {
      assert ReachIn(h, n, h[n][k]) !! ReachIn(h, n, h[n][m]);
    }
  }

  // ---------------------------------------------------------------- what a pass does

  /** A pass: the references, and for those that stand for an object in memory the object itself. */
  datatype Pass = Pass(r: Resolver, find: string -> Option<Node>)

  /** The objects handed out are there, below all that the pass writes, and stand for the values. */
  ghost predicate Finds(p: Pass, bound: nat, h: Heap) {
    forall s :: p.r.isRef(s) && p.find(s).Some? ==> FoundOk(p, bound, h, s, p.find(s).value)
  }

  ghost predicate FoundOk(p: Pass, bound: nat, h: Heap, s: string, m: Node) {
    m in h && m.level < bound && p.r.value(s) == Some(TreeOf(h, m))
  }

  /** A slot is as it was, or holds what was found for the reference that it held: the very object, if
      there is one. */
  ghost predicate Moved(p: Pass, v: Value, v': Value) {
    || v' == v
    || (IsRefSlot(p.r.isRef, v) && (p.find(v.json.s).Some? ==> v' == Ref(p.find(v.json.s).value)))
  }

  ghost predicate NodeMoved(p: Pass, c: Contents, c': Contents) {
    c'.Keys == c.Keys && forall k :: k in c ==> Moved(p, c[k], c'[k])
  }

  ghost predicate AllMoved(p: Pass, h: Heap, h': Heap) {
    forall x :: x in h ==> x in h' && NodeMoved(p, h[x], h'[x])
  }

  /** Only objects reached from `n` that hold references are written. */
  ghost predicate Confined(isRef: string -> bool, h: Heap, n: Node, h': Heap) {
    forall x :: x in h && (x !in Reach(h, n) || !OwnRef(isRef, h[x])) ==> x in h' && h'[x] == h[x]
  }

  /** What is reached now was reached before, or is below all that was written. */
  ghost predicate Lowered(bound: nat, before: set<Node>, after: set<Node>) {
    forall x :: x in after ==> x in before || x.level < bound
  }

  ghost predicate After(p: Pass, bound: nat, h: Heap, n: Node, h': Heap, ok: bool) {
    && Wf(h') && h.Keys <= h'.Keys
    && Confined(p.r.isRef, h, n, h')
    && AllMoved(p, h, h')
    && Lowered(bound, Reach(h, n), Reach(h', n))
    && Outcome(p.r, TreeOf(h, n), TreeOf(h', n), ok)
  }

  /** So a slot that a pass has changed held a reference, and holds the very object the reference leads to if
      it leads to one; nothing else of the object has changed. */
  lemma OnlyReferencesGive(p: Pass, bound: nat, h: Heap, n: Node, h': Heap, ok: bool, x: Node, k: Key)
    requires After(p, bound, h, n, h', ok) && x in h && k in h[x]
    ensures x in h' && h'[x].Keys == h[x].Keys
    ensures h'[x][k] != h[x][k] ==>
              && x in Reach(h, n)
              && exists s :: h[x][k] == Scalar(JStr(s)) && p.r.isRef(s)
                             && (p.find(s).Some? ==> h'[x][k] == Ref(p.find(s).value))
  {
    assert NodeMoved(p, h[x], h'[x]) && Moved(p, h[x][k], h'[x][k]);
    if h'[x][k] != h[x][k] {
      assert h[x][k] == Scalar(JStr(h[x][k].json.s));
    }
  }

  // ---------------------------------------------------------------- one turn of a pass

  /** In the middle of the slots of `n`: the slots still to do, and all they hang on, are untouched. */
  ghost predicate Midway(p: Pass, bound: nat, h: Heap, n: Node, hi: Heap, todo: set<Key>)
    requires n in h
  {
    && Wf(hi) && h.Keys <= hi.Keys && hi[n].Keys == h[n].Keys && todo <= h[n].Keys
    && Confined(p.r.isRef, h, n, hi)
    && AllMoved(p, h, hi)
    && (forall k :: k in todo ==> hi[n][k] == h[n][k] && SameOn(h, hi, ReachIn(h, n, h[n][k])))
    && (forall k :: k in h[n] && k !in todo ==> SlotDone(p, bound, h, n, hi, k))
  }

  ghost predicate SlotDone(p: Pass, bound: nat, h: Heap, n: Node, hi: Heap, k: Key)
    requires n in h && n in hi && k in h[n] && k in hi[n]
  {
    && Subst(p.r, ValueIn(h, n, h[n][k])) == Some(ValueIn(hi, n, hi[n][k]))
    && Lowered(bound, ReachIn(h, n, h[n][k]), ReachIn(hi, n, hi[n][k]))
  }

  lemma MidwayStart(p: Pass, bound: nat, h: Heap, n: Node)
    requires Wf(h) && n in h
    ensures Midway(p, bound, h, n, h, h[n].Keys)
  {
    assert NodeOk(h, n);
    ReachStays(h, n);
    forall k | k in h[n] ensures SameOn(h, h, ReachIn(h, n, h[n][k])) {
      assert forall x :: x in ReachIn(h, n, h[n][k]) ==> x in Reach(h, n);
    }
  }

  /** Nothing below `bound` is ever written. */
  lemma LowStays(p: Pass, bound: nat, h: Heap, n: Node, hi: Heap, x: Node)
    requires Wf(h) && n in h && Sound(p.r.isRef, bound, h, n) && Confined(p.r.isRef, h, n, hi)
    requires x in h && x.level < bound
    ensures x in hi && hi[x] == h[x]
  {
    if x in Reach(h, n) && OwnRef(p.r.isRef, h[x]) {
      WrittenIsHigh(p.r.isRef, bound, h, n, x);
    }
  }

  /** Whatever hangs on an object below `bound` stays as it is. */
  lemma LowTreeStays(p: Pass, bound: nat, h: Heap, n: Node, hi: Heap, m: Node)
    requires Wf(h) && n in h && Sound(p.r.isRef, bound, h, n) && Confined(p.r.isRef, h, n, hi)
    requires m in h && m.level < bound
    ensures TreeOf(hi, m) == TreeOf(h, m) && Reach(hi, m) == Reach(h, m)
  {
    ReachStays(h, m);
    forall x | x in Reach(h, m) ensures x in hi && hi[x] == h[x] {
      if x != m {
        ReachIsBelow(h, m, x);
      }
      LowStays(p, bound, h, n, hi, x);
    }
    Frame(h, hi, m);
  }

  lemma FindsStay(p: Pass, bound: nat, h: Heap, n: Node, hi: Heap)
    requires Wf(h) && n in h && Sound(p.r.isRef, bound, h, n) && Confined(p.r.isRef, h, n, hi) && h.Keys <= hi.Keys
    requires Finds(p, bound, h)
    ensures Finds(p, bound, hi)
  {
    forall s | p.r.isRef(s) && p.find(s).Some? ensures FoundOk(p, bound, hi, s, p.find(s).value) {
      assert FoundOk(p, bound, h, s, p.find(s).value);
      LowTreeStays(p, bound, h, n, hi, p.find(s).value);
    }
  }

  /** The object in a slot still to do is as it was, so the pass below it may begin. */
  lemma ChildReady(p: Pass, bound: nat, h: Heap, n: Node, hi: Heap, todo: set<Key>, k: Key)
    requires Wf(h) && n in h && Sound(p.r.isRef, bound, h, n) && Finds(p, bound, h)
    requires Midway(p, bound, h, n, hi, todo) && k in todo && h[n][k].Ref?
    ensures var c := h[n][k].node;
      && c in h && c in hi && Below(c, n)
      && Sound(p.r.isRef, bound, hi, c) && Finds(p, bound, hi)
      && SameOn(h, hi, Reach(h, c)) && Reach(hi, c) == Reach(h, c) && TreeOf(hi, c) == TreeOf(h, c)
      && ReachIn(h, n, h[n][k]) == Reach(h, c)
  {
    var c := h[n][k].node;
    assert NodeOk(h, n);
    assert SameOn(h, hi, ReachIn(h, n, h[n][k]));
    Frame(h, hi, c);
    SoundFrame(p.r.isRef, bound, h, hi, c);
    FindsStay(p, bound, h, n, hi);
  }

  // ---------------------------------------------------------------- the pass below one slot

  /** An object that another slot hangs on as well is not written. */
  lemma SharedStays(p: Pass, bound: nat, h: Heap, n: Node, hi: Heap, todo: set<Key>, k: Key, hi': Heap, ok: bool,
                    x: Node)
    requires Wf(h) && n in h && Sound(p.r.isRef, bound, h, n) && Finds(p, bound, h)
    requires Midway(p, bound, h, n, hi, todo) && k in todo && h[n][k].Ref?
    requires After(p, bound, hi, h[n][k].node, hi', ok)
    requires x in hi
    requires (exists m :: m in h[n] && m != k && x in ReachIn(h, n, h[n][m])) || x.level < bound
    ensures x in hi' && hi'[x] == hi[x]
  {
    var c := h[n][k].node;
    ChildReady(p, bound, h, n, hi, todo, k);
    if x in Reach(hi, c) && OwnRef(p.r.isRef, hi[x]) {
      assert hi[x] == h[x];
      assert x in ReachIn(h, n, h[n][k]) && x in Reach(h, n);
      WrittenIsHigh(p.r.isRef, bound, h, n, x);
      assert forall m :: m in h[n] && m != k ==>
          Unwritten(p.r.isRef, h, ReachIn(h, n, h[n][k]) * ReachIn(h, n, h[n][m]));
    }
  }

  lemma OwnSlotsStay(p: Pass, bound: nat, h: Heap, n: Node, hi: Heap, todo: set<Key>, k: Key, hi': Heap, ok: bool)
    requires Wf(h) && n in h && Sound(p.r.isRef, bound, h, n) && Finds(p, bound, h)
    requires Midway(p, bound, h, n, hi, todo) && k in todo && h[n][k].Ref?
    requires After(p, bound, hi, h[n][k].node, hi', ok)
    ensures n in hi' && hi'[n] == hi[n]
  {
    ChildReady(p, bound, h, n, hi, todo, k);
    var c := h[n][k].node;
    if n in Reach(hi, c) && n != c {
      ReachIsBelow(hi, c, n);
    }
  }

  /** What is done and what is still to do in the other slots stays as it is. */
  lemma OthersStay(p: Pass, bound: nat, h: Heap, n: Node, hi: Heap, todo: set<Key>, k: Key, hi': Heap, ok: bool, m: Key)
    requires Wf(h) && n in h && Sound(p.r.isRef, bound, h, n) && Finds(p, bound, h)
    requires Midway(p, bound, h, n, hi, todo) && k in todo && h[n][k].Ref?
    requires After(p, bound, hi, h[n][k].node, hi', ok)
    requires m in h[n] && m != k
    ensures m in todo ==> SameOn(h, hi', ReachIn(h, n, h[n][m]))
    ensures m !in todo ==> n in hi' && hi'[n] == hi[n] && SlotDone(p, bound, h, n, hi', m)
  {
    OwnSlotsStay(p, bound, h, n, hi, todo, k, hi', ok);
    if m in todo {
      forall x | x in ReachIn(h, n, h[n][m]) ensures x in hi' && hi'[x] == h[x] {
        SharedStays(p, bound, h, n, hi, todo, k, hi', ok, x);
      }
    } else {
      ReachStays(hi, n);
      assert SlotDone(p, bound, h, n, hi, m);
      forall x | x in ReachIn(hi, n, hi[n][m]) ensures x in hi && x in hi' && hi'[x] == hi[x] {
        assert x in Reach(hi, n);
        SharedStays(p, bound, h, n, hi, todo, k, hi', ok, x);
      }
      FrameIn(hi, hi', n, m);
    }
  }

  lemma StillConfined(p: Pass, bound: nat, h: Heap, n: Node, hi: Heap, todo: set<Key>, k: Key, hi': Heap, ok: bool)
    requires Wf(h) && n in h && Sound(p.r.isRef, bound, h, n) && Finds(p, bound, h)
    requires Midway(p, bound, h, n, hi, todo) && k in todo && h[n][k].Ref?
    requires After(p, bound, hi, h[n][k].node, hi', ok)
    ensures Confined(p.r.isRef, h, n, hi')
  {
    var c := h[n][k].node;
    ChildReady(p, bound, h, n, hi, todo, k);
    forall x | x in h && (x !in Reach(h, n) || !OwnRef(p.r.isRef, h[x])) ensures x in hi' && hi'[x] == h[x] {
      assert x in Reach(h, c) ==> x in ReachIn(h, n, h[n][k]);
      assert hi[x] == h[x];
    }
  }

  /** Of two stages in turn the second leaves alone what it was not the first to find as it was. */
  lemma MovedOn(p: Pass, h: Heap, hi: Heap, c: Node, hi': Heap)
    requires AllMoved(p, h, hi) && AllMoved(p, hi, hi') && Confined(p.r.isRef, hi, c, hi')
    requires SameOn(h, hi, Reach(hi, c)) && h.Keys <= hi.Keys
    ensures AllMoved(p, h, hi')
  {
    forall x | x in h ensures x in hi' && NodeMoved(p, h[x], hi'[x]) {
      assert NodeMoved(p, h[x], hi[x]) && NodeMoved(p, hi[x], hi'[x]);
      if x in Reach(hi, c) {
        assert hi[x] == h[x];
      } else {
        assert hi'[x] == hi[x];
      }
    }
  }

  lemma ChildDone(p: Pass, bound: nat, h: Heap, n: Node, hi: Heap, todo: set<Key>, k: Key, hi': Heap)
    requires Wf(h) && n in h && Sound(p.r.isRef, bound, h, n) && Finds(p, bound, h)
    requires Midway(p, bound, h, n, hi, todo) && k in todo && h[n][k].Ref?
    requires After(p, bound, hi, h[n][k].node, hi', true)
    ensures Midway(p, bound, h, n, hi', todo - {k})
  {
    ChildReady(p, bound, h, n, hi, todo, k);
    OwnSlotsStay(p, bound, h, n, hi, todo, k, hi', true);
    StillConfined(p, bound, h, n, hi, todo, k, hi', true);
    MovedOn(p, h, hi, h[n][k].node, hi');
    forall m | m in h[n] && m != k
      ensures m in todo ==> SameOn(h, hi', ReachIn(h, n, h[n][m]))
      ensures m !in todo ==> SlotDone(p, bound, h, n, hi', m)
    {
      OthersStay(p, bound, h, n, hi, todo, k, hi', true, m);
    }
    assert SlotDone(p, bound, h, n, hi', k);
  }

  // ---------------------------------------------------------------- a scalar slot

  lemma PlainDone(p: Pass, bound: nat, h: Heap, n: Node, hi: Heap, todo: set<Key>, k: Key)
    requires n in h && Midway(p, bound, h, n, hi, todo) && k in todo
    requires h[n][k].Scalar? && IsScalar(h[n][k].json) && !IsRefSlot(p.r.isRef, h[n][k])
    ensures Midway(p, bound, h, n, hi, todo - {k})
  {
    assert SlotDone(p, bound, h, n, hi, k);
  }

  lemma DoneStays(p: Pass, bound: nat, h: Heap, n: Node, hi: Heap, m: Key, hi': Heap)
    requires Wf(hi) && n in h && n in hi && n in hi' && m in h[n] && m in hi[n] && m in hi'[n]
    requires SlotDone(p, bound, h, n, hi, m) && hi'[n][m] == hi[n][m]
    requires forall x :: x in hi && x != n ==> x in hi' && hi'[x] == hi[x]
    ensures SlotDone(p, bound, h, n, hi', m)
  {
    SlotReach(hi, n, m);
    WriteKeeps(hi, n, hi[n][m], hi');
    FrameIn(hi, hi', n, m);
  }

  lemma TodoStays(h: Heap, n: Node, hi: Heap, m: Key, hi': Heap)
    requires Wf(h) && n in h && m in h[n] && h.Keys <= hi.Keys && SameOn(h, hi, ReachIn(h, n, h[n][m]))
    requires forall x :: x in hi && x != n ==> x in hi' && hi'[x] == hi[x]
    ensures SameOn(h, hi', ReachIn(h, n, h[n][m]))
  {
    forall x | x in ReachIn(h, n, h[n][m]) ensures x in h && x in hi' && hi'[x] == h[x] {
      NotItself(h, n, h[n][m], x);
    }
  }

  lemma RefMoved(p: Pass, h: Heap, n: Node, hi: Heap, k: Key, v: Value, hi': Heap)
    requires n in h && n in hi && k in h[n] && AllMoved(p, h, hi) && h.Keys <= hi.Keys && hi[n].Keys == h[n].Keys
    requires hi.Keys <= hi'.Keys && hi'[n] == hi[n][k := v] && Moved(p, h[n][k], v)
    requires forall x :: x in hi && x != n ==> hi'[x] == hi[x]
    ensures AllMoved(p, h, hi')
  {
    forall x | x in h ensures x in hi' && NodeMoved(p, h[x], hi'[x]) {
      assert NodeMoved(p, h[x], hi[x]);
    }
  }

  /** The reference in slot `k` is replaced by a value that hangs on low objects only. */
  lemma RefDone(p: Pass, bound: nat, h: Heap, n: Node, hi: Heap, todo: set<Key>, k: Key, v: Value, hi': Heap)
    requires Wf(h) && n in h && Sound(p.r.isRef, bound, h, n)
    requires Midway(p, bound, h, n, hi, todo) && k in todo && IsRefSlot(p.r.isRef, h[n][k])
    requires Wf(hi') && hi.Keys <= hi'.Keys && hi'[n] == hi[n][k := v]
    requires forall x :: x in hi && x != n ==> hi'[x] == hi[x]
    requires Moved(p, h[n][k], v)
    requires p.r.value(h[n][k].json.s) == Some(ValueIn(hi', n, v)) && Lowered(bound, {}, ReachIn(hi', n, v))
    ensures Midway(p, bound, h, n, hi', todo - {k})
  {
    forall m | m in h[n] && m != k && m !in todo ensures SlotDone(p, bound, h, n, hi', m) {
      DoneStays(p, bound, h, n, hi, m, hi');
    }
    forall m | m in todo && m != k ensures SameOn(h, hi', ReachIn(h, n, h[n][m])) {
      TodoStays(h, n, hi, m, hi');
    }
    RefMoved(p, h, n, hi, k, v, hi');
    RefConfined(p, h, n, hi, k, hi');
    assert SlotDone(p, bound, h, n, hi', k);
  }

  lemma RefConfined(p: Pass, h: Heap, n: Node, hi: Heap, k: Key, hi': Heap)
    requires n in h && k in h[n] && IsRefSlot(p.r.isRef, h[n][k]) && h.Keys <= hi.Keys <= hi'.Keys
    requires Confined(p.r.isRef, h, n, hi) && forall x :: x in hi && x != n ==> hi'[x] == hi[x]
    ensures Confined(p.r.isRef, h, n, hi')
  {
    assert OwnRef(p.r.isRef, h[n]) && n in Reach(h, n);
  }

  lemma BuiltBelow(hi: Heap, n: Node, k: Key, made: Heap, low: nat, height: nat, bound: nat, v: Value, j: Json,
                  hi': Heap)
    requires Wf(hi) && n in hi && k in hi[n] && n.level >= bound > low && hi.Keys !! made.Keys
    requires Wf(made) && PieceOk(made, low, height, v, j) && (forall x :: x in made ==> x.level == low)
    requires hi' == (hi + made)[n := hi[n][k := v]]
    ensures Wf(hi') && ValueIn(hi', n, v) == j && Lowered(bound, {}, ReachIn(hi', n, v))
  {
    WfJoined(hi, made);
    PieceKept(made, hi', low, height, height, v, j);
    WfWritten(hi + made, n, k, v);
  }

  lemma FoundBelow(p: Pass, bound: nat, hi: Heap, n: Node, k: Key, s: string, hi': Heap)
    requires Wf(hi) && n in hi && k in hi[n] && n.level >= bound && Finds(p, bound, hi)
    requires p.r.isRef(s) && p.find(s).Some? && hi' == hi[n := hi[n][k := Ref(p.find(s).value)]]
    ensures var v := Ref(p.find(s).value);
      Wf(hi') && p.r.value(s) == Some(ValueIn(hi', n, v)) && Lowered(bound, {}, ReachIn(hi', n, v))
  {
    var m := p.find(s).value;
    assert FoundOk(p, bound, hi, s, m);
    WfWritten(hi, n, k, Ref(m));
    ReachStays(hi, m);
    forall x | x in Reach(hi, m) ensures x.level < bound && x in hi' && hi'[x] == hi[x] {
      if x != m {
        ReachIsBelow(hi, m, x);
      }
    }
    Frame(hi, hi', m);
  }

  // ---------------------------------------------------------------- the end of a pass

  ghost function SlotTrees(h: Heap, n: Node): map<Key, Json>
    requires n in h
  {
    map k | k in h[n] :: ValueIn(h, n, h[n][k])
  }

  lemma LoweredReach(bound: nat, h: Heap, n: Node, h': Heap)
    requires n in h && n in h' && h'[n].Keys == h[n].Keys
    requires forall k :: k in h[n] ==> Lowered(bound, ReachIn(h, n, h[n][k]), ReachIn(h', n, h'[n][k]))
    ensures Lowered(bound, Reach(h, n), Reach(h', n))
  {
    forall x | x in Reach(h', n) ensures x in Reach(h, n) || x.level < bound {
      if x != n {
        var k :| k in h'[n] && x in ReachIn(h', n, h'[n][k]);
        assert Lowered(bound, ReachIn(h, n, h[n][k]), ReachIn(h', n, h'[n][k]));
      }
    }
  }

  lemma EndTree(p: Pass, bound: nat, h: Heap, n: Node, hi: Heap)
    requires n in h && n in hi && hi[n].Keys == h[n].Keys == Keys(n.shape)
    requires forall k :: k in h[n] ==> SlotDone(p, bound, h, n, hi, k)
    ensures Subst(p.r, TreeOf(h, n)) == Some(TreeOf(hi, n))
  {
    SubstOfAssembled(p.r, n.shape, SlotTrees(h, n), SlotTrees(hi, n));
  }

  lemma MidwayEnd(p: Pass, bound: nat, h: Heap, n: Node, hi: Heap)
    requires Wf(h) && n in h && Midway(p, bound, h, n, hi, {})
    ensures After(p, bound, h, n, hi, true)
  {
    assert NodeOk(h, n);
    EndTree(p, bound, h, n, hi);
    LoweredReach(bound, h, n, hi);
    AllIsPartly(p.r, TreeOf(h, n));
  }

  ghost predicate SlotPart(p: Pass, bound: nat, h: Heap, n: Node, hi: Heap, k: Key)
    requires n in h && n in hi && k in h[n] && k in hi[n]
  {
    && Partly(p.r, ValueIn(h, n, h[n][k]), ValueIn(hi, n, hi[n][k]))
    && Lowered(bound, ReachIn(h, n, h[n][k]), ReachIn(hi, n, hi[n][k]))
  }

  lemma HaltedAfter(p: Pass, bound: nat, h: Heap, n: Node, hi: Heap, k: Key)
    requires Wf(h) && n in h && Wf(hi) && h.Keys <= hi.Keys && hi[n].Keys == h[n].Keys
    requires Confined(p.r.isRef, h, n, hi) && AllMoved(p, h, hi)
    requires forall m :: m in h[n] ==> SlotPart(p, bound, h, n, hi, m)
    requires k in h[n] && Subst(p.r, ValueIn(h, n, h[n][k])).None?
    ensures After(p, bound, h, n, hi, false)
  {
    assert NodeOk(h, n);
    LoweredReach(bound, h, n, hi);
    SubstOfAssembledFails(p.r, n.shape, SlotTrees(h, n), k);
    PartlyOfAssembled(p.r, n.shape, SlotTrees(h, n), SlotTrees(hi, n));
  }

  lemma MidwayParts(p: Pass, bound: nat, h: Heap, n: Node, hi: Heap, todo: set<Key>, m: Key)
    requires n in h && Midway(p, bound, h, n, hi, todo) && m in h[n]
    ensures SlotPart(p, bound, h, n, hi, m)
  {
    if m in todo {
      assert SameOn(h, hi, ReachIn(h, n, h[n][m]));
      FrameIn(h, hi, n, m);
      NothingIsPartly(p.r, ValueIn(h, n, h[n][m]));
    } else {
      assert SlotDone(p, bound, h, n, hi, m);
      AllIsPartly(p.r, ValueIn(h, n, h[n][m]));
    }
  }

  lemma RefFails(p: Pass, bound: nat, h: Heap, n: Node, hi: Heap, todo: set<Key>, k: Key)
    requires Wf(h) && n in h && Midway(p, bound, h, n, hi, todo) && k in todo
    requires IsRefSlot(p.r.isRef, h[n][k]) && p.r.value(h[n][k].json.s).None?
    ensures After(p, bound, h, n, hi, false)
  {
    forall m | m in h[n] ensures SlotPart(p, bound, h, n, hi, m) {
      MidwayParts(p, bound, h, n, hi, todo, m);
    }
    HaltedAfter(p, bound, h, n, hi, k);
  }

  lemma ChildFails(p: Pass, bound: nat, h: Heap, n: Node, hi: Heap, todo: set<Key>, k: Key, hi': Heap)
    requires Wf(h) && n in h && Sound(p.r.isRef, bound, h, n) && Finds(p, bound, h)
    requires Midway(p, bound, h, n, hi, todo) && k in todo && h[n][k].Ref?
    requires After(p, bound, hi, h[n][k].node, hi', false)
    ensures After(p, bound, h, n, hi', false)
  {
    ChildReady(p, bound, h, n, hi, todo, k);
    OwnSlotsStay(p, bound, h, n, hi, todo, k, hi', false);
    StillConfined(p, bound, h, n, hi, todo, k, hi', false);
    MovedOn(p, h, hi, h[n][k].node, hi');
    forall m | m in h[n] ensures SlotPart(p, bound, h, n, hi', m) {
      if m != k {
        OthersStay(p, bound, h, n, hi, todo, k, hi', false, m);
        if m in todo {
          FrameIn(h, hi', n, m);
          NothingIsPartly(p.r, ValueIn(h, n, h[n][m]));
        } else {
          AllIsPartly(p.r, ValueIn(h, n, h[n][m]));
        }
      }
    }
    HaltedAfter(p, bound, h, n, hi', k);
  }

  // ---------------------------------------------------------------- what is shared afterwards

  /** All that is handed out hangs within `e`. */
  ghost predicate FindsIn(p: Pass, e: set<Node>, h: Heap) {
    forall s :: p.r.isRef(s) && p.find(s).Some? ==> Reach(h, p.find(s).value) <= e
  }

  /** What is reached now was reached before, or is new, or lies within `e`. */
  ghost predicate Grew(e: set<Node>, h: Heap, before: set<Node>, after: set<Node>) {
    forall x :: x in after ==> x in before || x !in h || x in e
  }

  /** Two slots of one object share nothing but what lies within `e`. */
  ghost predicate Apart(e: set<Node>, h: Heap, n: Node)
    requires n in h
    decreases n.level, n.height
  {
    && (forall k :: k in h[n] && h[n][k].Ref? && Below(h[n][k].node, n) && h[n][k].node in h ==>
          Apart(e, h, h[n][k].node))
    && (forall k, m {:trigger ReachIn(h, n, h[n][k]), ReachIn(h, n, h[n][m])} ::
          k in h[n] && m in h[n] && k != m ==> ReachIn(h, n, h[n][k]) * ReachIn(h, n, h[n][m]) <= e)
  }

  lemma {:induction false} TreelikeIsApart(e: set<Node>, h: Heap, n: Node)
    requires n in h && Treelike(h, n)
    ensures Apart(e, h, n)
    decreases n.level, n.height
  {
    forall k | k in h[n] && h[n][k].Ref? && Below(h[n][k].node, n) && h[n][k].node in h
      ensures Apart(e, h, h[n][k].node)
    {
      TreelikeIsApart(e, h, h[n][k].node);
    }
  }

  lemma {:induction false} ApartFrame(e: set<Node>, h: Heap, h': Heap, n: Node)
    requires Wf(h) && n in h && n in h' && Apart(e, h, n) && SameOn(h, h', Reach(h, n))
    ensures Apart(e, h', n)
    decreases n.level, n.height
  {
    assert n in Reach(h, n) && NodeOk(h, n);
    forall k | k in h[n] ensures ReachIn(h', n, h[n][k]) == ReachIn(h, n, h[n][k]) {
      FrameIn(h, h', n, k);
    }
    forall k | k in h[n] && h[n][k].Ref? && Below(h[n][k].node, n) && h[n][k].node in h'
      ensures Apart(e, h', h[n][k].node)
    {
      assert forall x :: x in Reach(h, h[n][k].node) ==> x in ReachIn(h, n, h[n][k]);
      ApartFrame(e, h, h', h[n][k].node);
    }
  }

  /** If sharing stays within `e` outside, all references below `n` are its own if there are none in `e`
      and on lower levels. */
  lemma {:induction false} ApartIsSound(isRef: string -> bool, bound: nat, e: set<Node>, h: Heap, n: Node)
    requires Wf(h) && n in h && Apart(e, h, n) && Unwritten(isRef, h, e)
    requires forall x :: x in Reach(h, n) && x in h && OwnRef(isRef, h[x]) ==> x.level >= bound
    ensures Sound(isRef, bound, h, n)
    decreases n.level, n.height
  {
    assert n in Reach(h, n) && NodeOk(h, n);
    forall k | k in h[n] && h[n][k].Ref? && Below(h[n][k].node, n) && h[n][k].node in h
      ensures Sound(isRef, bound, h, h[n][k].node)
    {
      assert forall x :: x in Reach(h, h[n][k].node) ==> x in ReachIn(h, n, h[n][k]);
      ApartIsSound(isRef, bound, e, h, h[n][k].node);
    }
    forall k, m | k in h[n] && m in h[n] && k != m
      ensures Unwritten(isRef, h, ReachIn(h, n, h[n][k]) * ReachIn(h, n, h[n][m]))
    {
      assert ReachIn(h, n, h[n][k]) * ReachIn(h, n, h[n][m]) <= e;
    }
  }

  ghost predicate Spread(e: set<Node>, h: Heap, n: Node, h': Heap)
    requires n in h && n in h'
  {
    Grew(e, h, Reach(h, n), Reach(h', n)) && (Apart(e, h, n) ==> Apart(e, h', n))
  }

  ghost predicate SlotApart(e: set<Node>, h: Heap, v: Value) {
    v.Ref? && v.node in h ==> Apart(e, h, v.node)
  }

  ghost predicate MidSpread(e: set<Node>, h: Heap, n: Node, hi: Heap)
    requires n in h && n in hi && hi[n].Keys == h[n].Keys
  {
    && (forall k {:trigger ReachIn(hi, n, hi[n][k])} :: k in h[n] ==>
          Grew(e, h, ReachIn(h, n, h[n][k]), ReachIn(hi, n, hi[n][k])))
    && (Apart(e, h, n) ==>
          && (forall k {:trigger SlotApart(e, hi, hi[n][k])} :: k in h[n] ==> SlotApart(e, hi, hi[n][k]))
          && (forall k, m {:trigger ReachIn(hi, n, hi[n][k]), ReachIn(hi, n, hi[n][m])} ::
                k in h[n] && m in h[n] && k != m ==> ReachIn(hi, n, hi[n][k]) * ReachIn(hi, n, hi[n][m]) <= e))
  }

  lemma SpreadStart(e: set<Node>, h: Heap, n: Node)
    requires Wf(h) && n in h
    ensures MidSpread(e, h, n, h)
  {
    assert NodeOk(h, n);
  }

  lemma SpreadEnd(e: set<Node>, h: Heap, n: Node, hi: Heap)
    requires n in h && n in hi && hi[n].Keys == h[n].Keys && MidSpread(e, h, n, hi)
    ensures Spread(e, h, n, hi)
  {
    forall x | x in Reach(hi, n) ensures x in Reach(h, n) || x !in h || x in e {
      if x != n {
        var k :| k in hi[n] && x in ReachIn(hi, n, hi[n][k]);
        assert Grew(e, h, ReachIn(h, n, h[n][k]), ReachIn(hi, n, hi[n][k]));
      }
    }
    if Apart(e, h, n) {
      forall k | k in hi[n] && hi[n][k].Ref? && hi[n][k].node in hi ensures Apart(e, hi, hi[n][k].node) {
        assert SlotApart(e, hi, hi[n][k]);
      }
    }
  }

  lemma SpreadOther(e: set<Node>, h: Heap, n: Node, m: Key, h': Heap)
    requires Wf(h) && n in h && m in h[n] && SameOn(h, h', ReachIn(h, n, h[n][m]))
    ensures ReachIn(h', n, h[n][m]) == ReachIn(h, n, h[n][m]) && ReachIn(h, n, h[n][m]) <= h.Keys
    ensures SlotApart(e, h, h[n][m]) ==> SlotApart(e, h', h[n][m])
  {
    assert NodeOk(h, n);
    SlotReach(h, n, m);
    FrameIn(h, h', n, m);
    if h[n][m].Ref? && SlotApart(e, h, h[n][m]) {
      assert h[n][m].node in Reach(h, h[n][m].node);
      ApartFrame(e, h, h', h[n][m].node);
    }
  }

  /** One slot gets a new value, the others stay as they are. */
  lemma SpreadTurn(e: set<Node>, h: Heap, n: Node, hi: Heap, k: Key, hi': Heap)
    requires Wf(hi) && n in h && n in hi && n in hi' && k in h[n] && h.Keys <= hi.Keys
    requires hi[n].Keys == h[n].Keys == hi'[n].Keys && MidSpread(e, h, n, hi)
    requires forall m {:trigger ReachIn(hi, n, hi[n][m])} :: m in h[n] && m != k ==>
               hi'[n][m] == hi[n][m] && SameOn(hi, hi', ReachIn(hi, n, hi[n][m]))
    requires Grew(e, hi, ReachIn(hi, n, hi[n][k]), ReachIn(hi', n, hi'[n][k]))
    requires Apart(e, h, n) ==> SlotApart(e, hi', hi'[n][k])
    ensures MidSpread(e, h, n, hi')
  {
    forall m | m in h[n] && m != k
      ensures ReachIn(hi', n, hi'[n][m]) == ReachIn(hi, n, hi[n][m]) && ReachIn(hi, n, hi[n][m]) <= hi.Keys
      ensures Apart(e, h, n) ==> SlotApart(e, hi', hi'[n][m])
    {
      assert SameOn(hi, hi', ReachIn(hi, n, hi[n][m]));
      SpreadOther(e, hi, n, m, hi');
    }
    assert Grew(e, h, ReachIn(h, n, h[n][k]), ReachIn(hi, n, hi[n][k]));
    forall m, o | m in h[n] && o in h[n] && m != o && Apart(e, h, n)
      ensures ReachIn(hi', n, hi'[n][m]) * ReachIn(hi', n, hi'[n][o]) <= e
    {
      assert ReachIn(hi, n, hi[n][m]) * ReachIn(hi, n, hi[n][o]) <= e;
    }
  }

  /** What the other slots hang on is left alone by the pass below one slot. */
  lemma OtherSame(p: Pass, bound: nat, h: Heap, n: Node, hi: Heap, todo: set<Key>, k: Key, hi': Heap, ok: bool, m: Key)
    requires Wf(h) && n in h && Sound(p.r.isRef, bound, h, n) && Finds(p, bound, h)
    requires Midway(p, bound, h, n, hi, todo) && k in todo && h[n][k].Ref?
    requires After(p, bound, hi, h[n][k].node, hi', ok)
    requires m in h[n] && m != k
    ensures SameOn(hi, hi', ReachIn(hi, n, hi[n][m]))
  {
    SlotReach(hi, n, m);
    forall x | x in ReachIn(hi, n, hi[n][m]) ensures x in hi && x in hi' && hi'[x] == hi[x] {
      if m in todo {
        assert SameOn(h, hi, ReachIn(h, n, h[n][m]));
        FrameIn(h, hi, n, m);
      } else {
        assert SlotDone(p, bound, h, n, hi, m);
      }
      SharedStays(p, bound, h, n, hi, todo, k, hi', ok, x);
    }
  }

  lemma SpreadChild(p: Pass, bound: nat, e: set<Node>, h: Heap, n: Node, hi: Heap, todo: set<Key>, k: Key, hi': Heap)
    requires Wf(h) && n in h && Sound(p.r.isRef, bound, h, n) && Finds(p, bound, h)
    requires Midway(p, bound, h, n, hi, todo) && k in todo && h[n][k].Ref?
    requires After(p, bound, hi, h[n][k].node, hi', true)
    requires h[n][k].node in hi && h[n][k].node in hi' && MidSpread(e, h, n, hi) && Spread(e, hi, h[n][k].node, hi')
    ensures n in hi' && hi'[n].Keys == h[n].Keys && MidSpread(e, h, n, hi')
  {
    ChildReady(p, bound, h, n, hi, todo, k);
    OwnSlotsStay(p, bound, h, n, hi, todo, k, hi', true);
    forall m | m in h[n] && m != k ensures SameOn(hi, hi', ReachIn(hi, n, hi[n][m])) {
      OtherSame(p, bound, h, n, hi, todo, k, hi', true, m);
    }
    assert SlotApart(e, hi, hi[n][k]) || !Apart(e, h, n);
    SpreadTurn(e, h, n, hi, k, hi');
  }

  /** Writing a slot of `n` itself. */
  lemma SpreadWrite(e: set<Node>, h: Heap, n: Node, hi: Heap, k: Key, v: Value, hi': Heap)
    requires Wf(hi) && n in h && n in hi && k in h[n] && h.Keys <= hi.Keys && hi[n].Keys == h[n].Keys
    requires hi.Keys <= hi'.Keys && hi'[n] == hi[n][k := v] && (forall x :: x in hi && x != n ==> hi'[x] == hi[x])
    requires MidSpread(e, h, n, hi) && Grew(e, hi, {}, ReachIn(hi', n, v)) && SlotApart(e, hi', v)
    ensures MidSpread(e, h, n, hi')
  {
    forall m | m in h[n] && m != k ensures SameOn(hi, hi', ReachIn(hi, n, hi[n][m])) {
      SlotReach(hi, n, m);
      WriteKeeps(hi, n, hi[n][m], hi');
    }
    SpreadTurn(e, h, n, hi, k, hi');
  }

  lemma FindsInStay(p: Pass, bound: nat, e: set<Node>, h: Heap, n: Node, hi: Heap)
    requires Wf(h) && n in h && Sound(p.r.isRef, bound, h, n) && Confined(p.r.isRef, h, n, hi) && h.Keys <= hi.Keys
    requires Finds(p, bound, h) && FindsIn(p, e, h)
    ensures FindsIn(p, e, hi)
  {
    forall s | p.r.isRef(s) && p.find(s).Some? ensures Reach(hi, p.find(s).value) <= e {
      assert FoundOk(p, bound, h, s, p.find(s).value);
      LowTreeStays(p, bound, h, n, hi, p.find(s).value);
    }
  }

  lemma {:induction false} WithinIsApart(e: set<Node>, h: Heap, n: Node)
    requires Wf(h) && n in h && Reach(h, n) <= e
    ensures Apart(e, h, n)
    decreases n.level, n.height
  {
    assert NodeOk(h, n);
    forall k | k in h[n] ensures ReachIn(h, n, h[n][k]) <= e {
      forall x | x in ReachIn(h, n, h[n][k]) ensures x in e {
        assert x in Reach(h, n);
      }
    }
    forall k | k in h[n] && h[n][k].Ref? ensures Apart(e, h, h[n][k].node) {
      assert Reach(h, h[n][k].node) == ReachIn(h, n, h[n][k]);
      WithinIsApart(e, h, h[n][k].node);
    }
  }

  lemma ChildSpread(p: Pass, bound: nat, e: set<Node>, h: Heap, n: Node, hi: Heap, todo: set<Key>, k: Key, hi': Heap)
    requires Wf(h) && n in h && Sound(p.r.isRef, bound, h, n) && Finds(p, bound, h)
    requires Midway(p, bound, h, n, hi, todo) && k in todo && h[n][k].Ref? && h[n][k].node in hi
    requires After(p, bound, hi, h[n][k].node, hi', true)
    requires FindsIn(p, e, h) ==> MidSpread(e, h, n, hi)
    requires FindsIn(p, e, hi) ==> Spread(e, hi, h[n][k].node, hi')
    ensures n in hi' && hi'[n].Keys == h[n].Keys && (FindsIn(p, e, h) ==> MidSpread(e, h, n, hi'))
  {
    OwnSlotsStay(p, bound, h, n, hi, todo, k, hi', true);
    if FindsIn(p, e, h) {
      FindsInStay(p, bound, e, h, n, hi);
      SpreadChild(p, bound, e, h, n, hi, todo, k, hi');
    }
  }

  lemma FoundSpread(p: Pass, bound: nat, e: set<Node>, h: Heap, n: Node, hi: Heap, k: Key, s: string, hi': Heap)
    requires Wf(h) && n in h && Sound(p.r.isRef, bound, h, n) && Confined(p.r.isRef, h, n, hi) && h.Keys <= hi.Keys
    requires Finds(p, bound, h) && FindsIn(p, e, h) && n.level >= bound
    requires Wf(hi) && n in hi && k in h[n] && hi[n].Keys == h[n].Keys && MidSpread(e, h, n, hi)
    requires p.r.isRef(s) && p.find(s).Some? && hi' == hi[n := hi[n][k := Ref(p.find(s).value)]]
    ensures MidSpread(e, h, n, hi')
  {
    var m := p.find(s).value;
    FindsStay(p, bound, h, n, hi);
    FindsInStay(p, bound, e, h, n, hi);
    FoundBelow(p, bound, hi, n, k, s, hi');
    assert FoundOk(p, bound, hi, s, m);
    ReachStays(hi, m);
    forall x | x in Reach(hi, m) ensures x in hi && x in hi' && hi'[x] == hi[x] {
      if x != m {
        ReachIsBelow(hi, m, x);
      }
    }
    Frame(hi, hi', m);
    WithinIsApart(e, hi', m);
    SpreadWrite(e, h, n, hi, k, Ref(m), hi');
  }

  lemma BuiltSpread(e: set<Node>, h: Heap, n: Node, hi: Heap, k: Key, made: Heap, low: nat, height: nat, v: Value,
                    j: Json, hi': Heap)
    requires Wf(hi) && n in h && n in hi && k in h[n] && h.Keys <= hi.Keys && hi[n].Keys == h[n].Keys
    requires MidSpread(e, h, n, hi) && Made(made, low, height, v, j) && hi.Keys !! made.Keys
    requires hi' == (hi + made)[n := hi[n][k := v]]
    ensures MidSpread(e, h, n, hi')
  {
    PieceKept(made, hi', low, height, height, v, j);
    if v.Ref? {
      TreelikeIsApart(e, hi', v.node);
    }
    SpreadWrite(e, h, n, hi, k, v, hi');
  }

  // ---------------------------------------------------------------- the pass

  /** One pass from an object down, in place, over the slots of each object in whatever order they come.
      `objects` is the memory, `all` what it has grown to. If all that is handed out lies within `e`, so
      does all that is shared afterwards and was not shared before. */
  method Rewrite(n: Node, p: Pass, objects: set<Node>, ghost bound: nat, ghost low: nat, ghost e: set<Node>)
    returns (ok: bool, all: set<Node>)
    requires n in objects && Wf(Snap(objects)) && low < bound
    requires Sound(p.r.isRef, bound, Snap(objects), n) && Finds(p, bound, Snap(objects))
    modifies objects
    ensures objects <= all && fresh(all - objects)
    ensures After(p, bound, old(Snap(objects)), n, Snap(all), ok)
    ensures ok && FindsIn(p, e, old(Snap(objects))) ==> Spread(e, old(Snap(objects)), n, Snap(all))
    ensures forall x :: x in all - objects ==> x.level == low
    decreases n.level, n.height, 1
  {
    ghost var h := Snap(objects);
    all := objects;
    var todo := n.slots.Keys;
    MidwayStart(p, bound, h, n);
    SpreadStart(e, h, n);
    while todo != {}
      invariant objects <= all && fresh(all - objects) && forall x :: x in all - objects ==> x.level == low
      invariant Midway(p, bound, h, n, Snap(all), todo)
      invariant FindsIn(p, e, h) ==> MidSpread(e, h, n, Snap(all))
    {
      var k :| k in todo;
      ok, all := Visit(n, p, k, h, all, todo, bound, low, e);
      if !ok {
        return;
      }
      todo := todo - {k};
    }
    MidwayEnd(p, bound, h, n, Snap(all));
    if FindsIn(p, e, h) {
      SpreadEnd(e, h, n, Snap(all));
    }
    ok := true;
  }

  /** The pass at one slot. */
  method Visit(n: Node, p: Pass, k: Key, ghost h: Heap, before: set<Node>, ghost todo: set<Key>,
               ghost bound: nat, ghost low: nat, ghost e: set<Node>)
    returns (ok: bool, all: set<Node>)
    requires Wf(h) && n in h && n in before && low < bound && Sound(p.r.isRef, bound, h, n) && Finds(p, bound, h)
    requires k in todo && Midway(p, bound, h, n, Snap(before), todo)
    requires FindsIn(p, e, h) ==> MidSpread(e, h, n, Snap(before))
    modifies before
    ensures before <= all && fresh(all - before)
    ensures ok ==> Midway(p, bound, h, n, Snap(all), todo - {k})
    ensures ok && FindsIn(p, e, h) ==> MidSpread(e, h, n, Snap(all))
    ensures forall x :: x in all - before ==> x.level == low
    ensures !ok ==> After(p, bound, h, n, Snap(all), false)
    decreases n.level, n.height, 0
  {
    ghost var hi := Snap(before);
    all := before;
    assert NodeOk(h, n);
    match n.slots[k] {
      case Ref(c) =>
        ChildReady(p, bound, h, n, hi, todo, k);
        ok, all := Rewrite(c, p, before, bound, low, e);
        ghost var now := Snap(all);
        if ok {
          ChildDone(p, bound, h, n, hi, todo, k, now);
          ChildSpread(p, bound, e, h, n, hi, todo, k, now);
        } else {
          ChildFails(p, bound, h, n, hi, todo, k, now);
        }
      case Scalar(j) =>
        if !(j.JStr? && p.r.isRef(j.s)) {
          PlainDone(p, bound, h, n, hi, todo, k);
          return true, all;
        }
        if p.r.value(j.s).None? {
          RefFails(p, bound, h, n, hi, todo, k);
          return false, all;
        }
        ok := true;
        if p.find(j.s).Some? {
          ReplaceByFound(n, p, k, j.s, h, before, todo, bound, e);
        } else {
          all := ReplaceByNew(n, p, k, j.s, h, before, todo, bound, low, e);
        }
    }
  }

  lemma PutFound(p: Pass, bound: nat, e: set<Node>, h: Heap, n: Node, hi: Heap, todo: set<Key>, k: Key, s: string,
                 hi': Heap)
    requires Wf(h) && n in h && Sound(p.r.isRef, bound, h, n) && Finds(p, bound, h)
    requires Midway(p, bound, h, n, hi, todo) && k in todo
    requires h[n][k] == Scalar(JStr(s)) && p.r.isRef(s) && p.find(s).Some?
    requires Grown(hi, map[], n, hi[n][k := Ref(p.find(s).value)], hi')
    ensures Midway(p, bound, h, n, hi', todo - {k})
    ensures FindsIn(p, e, h) && MidSpread(e, h, n, hi) ==> MidSpread(e, h, n, hi')
  {
    assert IsRefSlot(p.r.isRef, h[n][k]) && OwnRef(p.r.isRef, h[n]);
    FindsStay(p, bound, h, n, hi);
    GrownIs(hi, map[], n, hi[n][k := Ref(p.find(s).value)], hi');
    assert hi + map[] == hi;
    FoundBelow(p, bound, hi, n, k, s, hi');
    RefDone(p, bound, h, n, hi, todo, k, Ref(p.find(s).value), hi');
    if FindsIn(p, e, h) && MidSpread(e, h, n, hi) {
      FoundSpread(p, bound, e, h, n, hi, k, s, hi');
    }
  }

  lemma PutBuilt(p: Pass, bound: nat, e: set<Node>, h: Heap, n: Node, hi: Heap, todo: set<Key>, k: Key, s: string,
                 made: Heap, low: nat, height: nat, v: Value, hi': Heap)
    requires Wf(h) && n in h && Sound(p.r.isRef, bound, h, n) && Finds(p, bound, h) && low < bound
    requires Midway(p, bound, h, n, hi, todo) && k in todo
    requires h[n][k] == Scalar(JStr(s)) && p.r.isRef(s) && p.find(s).None? && p.r.value(s).Some?
    requires hi.Keys !! made.Keys && Made(made, low, height, v, p.r.value(s).value)
    requires Grown(hi, made, n, hi[n][k := v], hi')
    ensures Midway(p, bound, h, n, hi', todo - {k})
    ensures MidSpread(e, h, n, hi) ==> MidSpread(e, h, n, hi')
  {
    assert IsRefSlot(p.r.isRef, h[n][k]) && OwnRef(p.r.isRef, h[n]);
    GrownIs(hi, made, n, hi[n][k := v], hi');
    BuiltBelow(hi, n, k, made, low, height, bound, v, p.r.value(s).value, hi');
    RefDone(p, bound, h, n, hi, todo, k, v, hi');
    if MidSpread(e, h, n, hi) {
      BuiltSpread(e, h, n, hi, k, made, low, height, v, p.r.value(s).value, hi');
    }
  }

  /** Overwrite one slot of one object. */
  method Put(n: Node, k: Key, v: Value, objects: set<Node>, ghost more: set<Node>)
    requires n in objects && objects !! more && k in n.slots
    modifies n
    ensures Grown(old(Snap(objects)), old(Snap(more)), n, old(n.slots)[k := v], Snap(objects + more))
  {
    n.slots := n.slots[k := v];
  }

  /** The reference in a slot gives way to the very object found for it. */
  method ReplaceByFound(n: Node, p: Pass, k: Key, s: string, ghost h: Heap, all: set<Node>,
                        ghost todo: set<Key>, ghost bound: nat, ghost e: set<Node>)
    requires Wf(h) && n in h && n in all && Sound(p.r.isRef, bound, h, n) && Finds(p, bound, h)
    requires k in todo && Midway(p, bound, h, n, Snap(all), todo)
    requires h[n][k] == Scalar(JStr(s)) && p.r.isRef(s) && p.find(s).Some?
    modifies n
    ensures Midway(p, bound, h, n, Snap(all), todo - {k})
    ensures FindsIn(p, e, h) && MidSpread(e, h, n, old(Snap(all))) ==> MidSpread(e, h, n, Snap(all))
  {
    ghost var hi := Snap(all);
    Put(n, k, Ref(p.find(s).value), all, {});
    assert all + {} == all;
    PutFound(p, bound, e, h, n, hi, todo, k, s, Snap(all));
  }

  /** The reference in a slot gives way to a new value. */
  method ReplaceByNew(n: Node, p: Pass, k: Key, s: string, ghost h: Heap, before: set<Node>,
                      ghost todo: set<Key>, ghost bound: nat, ghost low: nat, ghost e: set<Node>)
    returns (all: set<Node>)
    requires Wf(h) && n in h && n in before && low < bound && Sound(p.r.isRef, bound, h, n) && Finds(p, bound, h)
    requires k in todo && Midway(p, bound, h, n, Snap(before), todo)
    requires h[n][k] == Scalar(JStr(s)) && p.r.isRef(s) && p.find(s).None? && p.r.value(s).Some?
    modifies n
    ensures before <= all && fresh(all - before)
    ensures Midway(p, bound, h, n, Snap(all), todo - {k})
    ensures MidSpread(e, h, n, old(Snap(before))) ==> MidSpread(e, h, n, Snap(all))
    ensures forall x :: x in all - before ==> x.level == low
  {
    ghost var hi := Snap(before);
    ghost var height;
    var v, made;
    v, made, height := Build(p.r.value(s).value, low);
    ghost var built := Snap(made);
    all := before + made;
    assert Snap(before) == hi;
    Put(n, k, v, before, made);
    ghost var now := Snap(all);
    PutBuilt(p, bound, e, h, n, hi, todo, k, s, built, low, height, v, now);
  }

  // ---------------------------------------------------------------- objects without references

  lemma {:induction false} CleanBelow(r: Resolver, h: Heap, n: Node, x: Node)
    requires Wf(h) && n in h && !HasRef(r, TreeOf(h, n)) && x in Reach(h, n)
    ensures x in h && !OwnRef(r.isRef, h[x])
    decreases n.level, n.height
  {
    assert NodeOk(h, n);
    if x == n {
      forall k | k in h[n] ensures !IsRefSlot(r.isRef, h[n][k]) {
        CleanSlot(r, h, n, k);
      }
    } else {
      var k :| k in h[n] && x in ReachIn(h, n, h[n][k]);
      CleanSlot(r, h, n, k);
      CleanBelow(r, h, h[n][k].node, x);
    }
  }

  lemma CleanSlot(r: Resolver, h: Heap, n: Node, k: Key)
    requires n in h && h[n].Keys == Keys(n.shape) && k in h[n] && !HasRef(r, TreeOf(h, n))
    ensures !HasRef(r, ValueIn(h, n, h[n][k]))
  {
    var j := TreeOf(h, n);
    match n.shape
    case Object(names) => assert k.name in names && j.fields[k.name] == ValueIn(h, n, h[n][k]);
    case Array(length) => assert 0 <= k.index < length && j.items[k.index] == ValueIn(h, n, h[n][k]);
  }

  /** An object without references may be shared in any way. */
  lemma {:induction false} CleanIsSound(r: Resolver, bound: nat, h: Heap, n: Node)
    requires Wf(h) && n in h && !HasRef(r, TreeOf(h, n))
    ensures Sound(r.isRef, bound, h, n)
    decreases n.level, n.height
  {
    assert NodeOk(h, n) && n in Reach(h, n);
    CleanBelow(r, h, n, n);
    forall k | k in h[n] && h[n][k].Ref? ensures Sound(r.isRef, bound, h, h[n][k].node) {
      CleanSlot(r, h, n, k);
      CleanIsSound(r, bound, h, h[n][k].node);
    }
    forall k, m | k in h[n] && m in h[n] && k != m
      ensures Unwritten(r.isRef, h, ReachIn(h, n, h[n][k]) * ReachIn(h, n, h[n][m]))
    {
      forall x | x in ReachIn(h, n, h[n][k]) && x in h ensures !OwnRef(r.isRef, h[x]) {
        assert x in Reach(h, n);
        CleanBelow(r, h, n, x);
      }
    }
  }

  /** And no pass, from wherever it comes to it, writes to it or to anything it hangs on. */
  lemma CleanStays(r: Resolver, h: Heap, n: Node, h': Heap, m: Node)
    requires Wf(h) && Confined(r.isRef, h, n, h') && m in h && !HasRef(r, TreeOf(h, m))
    ensures SameOn(h, h', Reach(h, m)) && TreeOf(h', m) == TreeOf(h, m)
  {
    forall x | x in Reach(h, m) ensures x in h && x in h' && h'[x] == h[x] {
      CleanBelow(r, h, m, x);
    }
    Frame(h, h', m);
  }
}
