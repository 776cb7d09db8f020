/** pkg/agent/service/flow.go: JSON objects in memory, where they may be shared. The memory is a finite set
    of objects; what it holds at one time is a map, and all reasoning is about such maps. */
module FlowHeap {
  import opened Wrappers
  import opened FlowJson

  /** What a slot holds: a scalar, or an object or array that others may hold as well. */
  datatype Value = Scalar(json: Json) | Ref(node: Node)

  type Contents = map<Key, Value>

  /** What the objects hold. */
  type Heap = map<Node, Contents>

  /** An object or array whose slots are overwritten in place. Objects only refer downwards: to a lower
      level, or to a lesser height on their own. */
  class Node {
    const shape: Shape
    ghost const level: nat
    ghost const height: nat
    var slots: Contents

    constructor (shape: Shape, slots: Contents, ghost level: nat, ghost height: nat)
      ensures this.shape == shape && this.slots == slots && this.level == level && this.height == height
    {
      this.shape, this.slots, this.level, this.height := shape, slots, level, height;
    }
  }

  function Snap(objects: set<Node>): Heap
    reads objects
  {
    map n | n in objects :: n.slots
  }

  // ---------------------------------------------------------------- what a memory means

  ghost predicate Below(c: Node, n: Node) {
    c.level < n.level || (c.level == n.level && c.height < n.height)
  }

  ghost predicate SlotOk(h: Heap, n: Node, v: Value) {
    match v
    case Scalar(j) => IsScalar(j)
    case Ref(c) => c in h && Below(c, n)
  }

  ghost predicate NodeOk(h: Heap, n: Node)
    requires n in h
  {
    h[n].Keys == Keys(n.shape) && forall k :: k in h[n] ==> SlotOk(h, n, h[n][k])
  }

  ghost predicate Wf(h: Heap) {
    forall n {:trigger NodeOk(h, n)} :: n in h ==> NodeOk(h, n)
  }

  /** The JSON value that a slot of `n` stands for. */
  ghost function ValueIn(h: Heap, n: Node, v: Value): Json
    decreases n.level, n.height, 0
  {
    match v
    case Scalar(j) => j
    case Ref(c) => if Below(c, n) then TreeOf(h, c) else JNull
  }

  /** The JSON value that an object stands for. */
  ghost function TreeOf(h: Heap, n: Node): Json
    decreases n.level, n.height, 1
  {
    if n in h && h[n].Keys == Keys(n.shape) then Assemble(n.shape, map k | k in h[n] :: ValueIn(h, n, h[n][k]))
    else JNull
  }

  ghost function ReachIn(h: Heap, n: Node, v: Value): set<Node>
    decreases n.level, n.height, 0
  {
    if v.Ref? && Below(v.node, n) then Reach(h, v.node) else {}
  }

  /** The objects that a value hangs on. */
  ghost function Reach(h: Heap, n: Node): set<Node>
    decreases n.level, n.height, 1
  {
    if n in h then {n} + set k, x | k in h[n] && x in ReachIn(h, n, h[n][k]) :: x else {n}
  }

  lemma {:induction false} ReachIsBelow(h: Heap, n: Node, x: Node)
    requires x in Reach(h, n) && x != n
    ensures Below(x, n)
    decreases n.level, n.height
  {
    var k :| n in h && k in h[n] && x in ReachIn(h, n, h[n][k]);
    if x != h[n][k].node {
      ReachIsBelow(h, h[n][k].node, x);
    }
  }

  lemma {:induction false} ReachStays(h: Heap, n: Node)
    requires Wf(h) && n in h
    ensures Reach(h, n) <= h.Keys
    decreases n.level, n.height
  {
    assert NodeOk(h, n);
    forall k | k in h[n] ensures ReachIn(h, n, h[n][k]) <= h.Keys {
      if h[n][k].Ref? {
        ReachStays(h, h[n][k].node);
      }
    }
  }

  /** What hangs on something hangs on whatever that hangs on. */
  lemma {:induction false} ReachGoesOn(h: Heap, n: Node, m: Node)
    requires m in Reach(h, n)
    ensures Reach(h, m) <= Reach(h, n)
    decreases n.level, n.height
  {
    if m != n {
      var k :| n in h && k in h[n] && m in ReachIn(h, n, h[n][k]);
      ReachGoesOn(h, h[n][k].node, m);
      assert forall x :: x in ReachIn(h, n, h[n][k]) ==> x in Reach(h, n);
    }
  }

  ghost predicate SameOn(h: Heap, h': Heap, xs: set<Node>) {
    forall x :: x in xs ==> x in h && x in h' && h'[x] == h[x]
  }

  /** A value depends on the objects it hangs on and on nothing else. */
  lemma {:induction false} Frame(h: Heap, h': Heap, n: Node)
    requires SameOn(h, h', Reach(h, n))
    ensures TreeOf(h', n) == TreeOf(h, n) && Reach(h', n) == Reach(h, n)
    decreases n.level, n.height
  {
    assert n in Reach(h, n);
    forall k | k in h[n]
      ensures ValueIn(h', n, h[n][k]) == ValueIn(h, n, h[n][k]) && ReachIn(h', n, h[n][k]) == ReachIn(h, n, h[n][k])
    {
      FrameIn(h, h', n, k);
    }
    assert (map k | k in h[n] :: ValueIn(h', n, h[n][k])) == map k | k in h[n] :: ValueIn(h, n, h[n][k]);
  }

  lemma {:induction false} FrameIn(h: Heap, h': Heap, n: Node, k: Key)
    requires n in h && k in h[n] && SameOn(h, h', ReachIn(h, n, h[n][k]))
    ensures ValueIn(h', n, h[n][k]) == ValueIn(h, n, h[n][k]) && ReachIn(h', n, h[n][k]) == ReachIn(h, n, h[n][k])
    decreases n.level, n.height, 0
  {
    var v := h[n][k];
    if v.Ref? && Below(v.node, n) {
      Frame(h, h', v.node);
    }
  }

  // ---------------------------------------------------------------- going down

  /** The part of a value at the end of a path of keys. */
  function At(j: Json, keys: seq<Key>): Option<Json> {
    if keys == [] then Some(j)
    else if j.JObj? && keys[0].Name? && keys[0].name in j.fields then At(j.fields[keys[0].name], keys[1..])
    else if j.JArr? && keys[0].Index? && keys[0].index < |j.items| then At(j.items[keys[0].index], keys[1..])
    else None
  }

  /** The object there. */
  function Walk(h: Heap, n: Node, keys: seq<Key>): Option<Node> {
    if keys == [] then Some(n)
    else if n in h && keys[0] in h[n] && h[n][keys[0]].Ref? then Walk(h, h[n][keys[0]].node, keys[1..])
    else None
  }

  /** It stands for that part. */
  lemma {:induction false} WalkFinds(h: Heap, n: Node, keys: seq<Key>)
    requires Wf(h) && n in h && Walk(h, n, keys).Some?
    ensures var m := Walk(h, n, keys).value;
      m in Reach(h, n) && At(TreeOf(h, n), keys) == Some(TreeOf(h, m))
    decreases |keys|
  {
    if keys != [] {
      assert NodeOk(h, n);
      var k := keys[0];
      var c := h[n][k].node;
      WalkFinds(h, c, keys[1..]);
      assert Walk(h, n, keys).value in ReachIn(h, n, h[n][k]);
      AtSlot(h, n, k, keys);
    }
  }

  lemma AtSlot(h: Heap, n: Node, k: Key, keys: seq<Key>)
    requires n in h && h[n].Keys == Keys(n.shape) && k in h[n] && keys != [] && keys[0] == k
    ensures At(TreeOf(h, n), keys) == At(ValueIn(h, n, h[n][k]), keys[1..])
  {
    var j := TreeOf(h, n);
    match n.shape
    case Object(names) => assert k.name in names && j.fields[k.name] == ValueIn(h, n, h[n][k]);
    case Array(length) => assert 0 <= k.index < length && j.items[k.index] == ValueIn(h, n, h[n][k]);
  }

  // ---------------------------------------------------------------- growing and writing

  lemma SlotReach(h: Heap, n: Node, k: Key)
    requires Wf(h) && n in h && k in h[n]
    ensures ReachIn(h, n, h[n][k]) <= Reach(h, n) && ReachIn(h, n, h[n][k]) <= h.Keys
  {
    ReachStays(h, n);
  }

  lemma NotItself(h: Heap, n: Node, v: Value, x: Node)
    requires x in ReachIn(h, n, v)
    ensures x != n
  {
    if x != v.node {
      ReachIsBelow(h, v.node, x);
    }
  }

  /** Writing a slot of `n` changes nothing that the slots of `n` hang on. */
  lemma WriteKeeps(h: Heap, n: Node, v: Value, h': Heap)
    requires Wf(h) && n in h && ReachIn(h, n, v) <= h.Keys
    requires forall x :: x in h && x != n ==> x in h' && h'[x] == h[x]
    ensures SameOn(h, h', ReachIn(h, n, v))
  {
    forall x | x in ReachIn(h, n, v) ensures x in h && x in h' && h'[x] == h[x] {
      NotItself(h, n, v, x);
    }
  }

  lemma WfWritten(h: Heap, n: Node, k: Key, v: Value)
    requires Wf(h) && n in h && k in h[n] && SlotOk(h, n, v)
    ensures Wf(h[n := h[n][k := v]])
  {
    var h' := h[n := h[n][k := v]];
    forall x | x in h' ensures NodeOk(h', x) {
      assert NodeOk(h, x);
    }
  }

  /** Memory `h'` is `h` and the new objects of `more`, with `contents` in `n`. */
  ghost predicate Grown(h: Heap, more: Heap, n: Node, contents: Contents, h': Heap) {
    && h'.Keys == h.Keys + more.Keys + {n}
    && h'[n] == contents
    && (forall x :: x in h && x != n ==> h'[x] == h[x])
    && (forall x :: x in more && x != n ==> h'[x] == more[x])
  }

  lemma GrownIs(h: Heap, more: Heap, n: Node, contents: Contents, h': Heap)
    requires Grown(h, more, n, contents, h') && h.Keys !! more.Keys
    ensures h' == (h + more)[n := contents]
  {
  }

  ghost predicate Joined(a: Heap, b: Heap, h: Heap) {
    && h.Keys == a.Keys + b.Keys
    && (forall x :: x in a ==> h[x] == a[x])
    && (forall x :: x in b ==> h[x] == b[x])
  }

  lemma SnapJoined(a: set<Node>, b: set<Node>)
    requires a !! b
    ensures Joined(Snap(a), Snap(b), Snap(a + b))
  {
  }

  lemma WfJoined(a: Heap, b: Heap)
    requires Wf(a) && Wf(b) && a.Keys !! b.Keys
    ensures Wf(a + b)
  {
    forall n | n in a + b ensures NodeOk(a + b, n) {
      if n in a {
        assert NodeOk(a, n);
      } else {
        assert NodeOk(b, n);
      }
    }
  }

  /** Memory has grown, and nothing that was there has changed. */
  ghost predicate Extended(h: Heap, h': Heap) {
    forall x :: x in h ==> x in h' && h'[x] == h[x]
  }

  // ---------------------------------------------------------------- building

  ghost function ReachOf(h: Heap, v: Value): set<Node> {
    if v.Ref? then Reach(h, v.node) else {}
  }

  /** A value of one level of memory that shares nothing. */
  ghost predicate PieceOk(h: Heap, level: nat, height: nat, v: Value, j: Json) {
    match v
    case Scalar(i) => i == j && IsScalar(j)
    case Ref(c) =>
      c in h && c.level == level && c.height < height && TreeOf(h, c) == j && Treelike(h, c)
  }

  /** No two slots of an object hang on the same object. */
  ghost predicate Treelike(h: Heap, n: Node)
    requires n in h
    decreases n.level, n.height
  {
    && (forall k :: k in h[n] && h[n][k].Ref? && Below(h[n][k].node, n) && h[n][k].node in h ==>
          Treelike(h, h[n][k].node))
    && (forall k, m {:trigger ReachIn(h, n, h[n][k]), ReachIn(h, n, h[n][m])} ::
          k in h[n] && m in h[n] && k != m ==> ReachIn(h, n, h[n][k]) !! ReachIn(h, n, h[n][m]))
  }

  lemma {:induction false} TreelikeFrame(h: Heap, h': Heap, n: Node)
    requires Wf(h) && n in h && n in h' && Treelike(h, n) && SameOn(h, h', Reach(h, n))
    ensures Treelike(h', n)
    decreases n.level, n.height
  {
    assert n in Reach(h, n) && NodeOk(h, n);
    forall k | k in h[n] ensures ReachIn(h', n, h[n][k]) == ReachIn(h, n, h[n][k]) {
      FrameIn(h, h', n, k);
    }
    forall k | k in h[n] && h[n][k].Ref? && Below(h[n][k].node, n) && h[n][k].node in h'
      ensures Treelike(h', h[n][k].node)
    {
      assert forall x :: x in Reach(h, h[n][k].node) ==> x in ReachIn(h, n, h[n][k]);
      TreelikeFrame(h, h', h[n][k].node);
    }
  }

  ghost predicate Pieces(h: Heap, level: nat, height: nat, slots: Contents, parts: map<Key, Json>) {
    && Wf(h) && slots.Keys <= parts.Keys
    && (forall x :: x in h ==> x.level == level)
    && (forall k {:trigger PieceOk(h, level, height, slots[k], parts[k])} :: k in slots ==>
          PieceOk(h, level, height, slots[k], parts[k]))
    && (forall k, m {:trigger ReachOf(h, slots[k]), ReachOf(h, slots[m])} :: k in slots && m in slots && k != m ==>
          ReachOf(h, slots[k]) !! ReachOf(h, slots[m]))
  }

  lemma PieceKept(h: Heap, h': Heap, level: nat, height: nat, height': nat, v: Value, j: Json)
    requires Wf(h) && PieceOk(h, level, height, v, j) && height <= height'
    requires forall x :: x in h ==> x in h' && h'[x] == h[x]
    ensures PieceOk(h', level, height', v, j) && ReachOf(h', v) == ReachOf(h, v) && ReachOf(h, v) <= h.Keys
  {
    if v.Ref? {
      ReachStays(h, v.node);
      assert SameOn(h, h', Reach(h, v.node));
      Frame(h, h', v.node);
      TreelikeFrame(h, h', v.node);
    }
  }

  lemma AddPiece(h: Heap, level: nat, height: nat, slots: Contents, parts: map<Key, Json>,
                 more: Heap, height': nat, k: Key, v: Value)
    requires Pieces(h, level, height, slots, parts) && k in parts && k !in slots
    requires Wf(more) && h.Keys !! more.Keys && (forall x :: x in more ==> x.level == level)
    requires PieceOk(more, level, height', v, parts[k]) && height <= height'
    ensures Pieces(h + more, level, height', slots[k := v], parts)
  {
    var all, now := h + more, slots[k := v];
    WfJoined(h, more);
    PieceKept(more, all, level, height', height', v, parts[k]);
    forall m | m in slots ensures PieceOk(all, level, height', slots[m], parts[m]) {
      assert PieceOk(h, level, height, slots[m], parts[m]);
      PieceKept(h, all, level, height, height', slots[m], parts[m]);
    }
    forall m | m in slots ensures ReachOf(all, slots[m]) == ReachOf(h, slots[m]) && ReachOf(h, slots[m]) <= h.Keys {
      assert PieceOk(h, level, height, slots[m], parts[m]);
      PieceKept(h, all, level, height, height', slots[m], parts[m]);
    }
  }

  /** The object that holds all the pieces. */
  lemma CapPieces(h: Heap, n: Node, slots: Contents, j: Json)
    requires !IsScalar(j) && n !in h && n.shape == ShapeOf(j)
    requires Pieces(h, n.level, n.height, slots, SlotsOf(j)) && slots.Keys == SlotsOf(j).Keys
    ensures Wf(h[n := slots]) && PieceOk(h[n := slots], n.level, n.height + 1, Ref(n), j)
  {
    var h', parts := h[n := slots], SlotsOf(j);
    AssembledFromSlots(j);
    forall k | k in slots
      ensures PieceOk(h', n.level, n.height, slots[k], parts[k]) && ReachOf(h', slots[k]) == ReachOf(h, slots[k])
      ensures ReachOf(h, slots[k]) <= h.Keys
    {
      assert PieceOk(h, n.level, n.height, slots[k], parts[k]);
      PieceKept(h, h', n.level, n.height, n.height, slots[k], parts[k]);
    }
    CapWf(h, n, slots, parts);
    CapTree(h', n, slots, parts);
    CapTreelike(h, n, slots, parts);
  }

  lemma CapTreelike(h: Heap, n: Node, slots: Contents, parts: map<Key, Json>)
    requires n !in h && Pieces(h, n.level, n.height, slots, parts)
    requires forall k :: k in slots ==>
               PieceOk(h[n := slots], n.level, n.height, slots[k], parts[k])
               && ReachOf(h[n := slots], slots[k]) == ReachOf(h, slots[k])
    ensures Treelike(h[n := slots], n)
  {
    var h' := h[n := slots];
    forall k, m | k in slots && m in slots && k != m
      ensures ReachIn(h', n, slots[k]) !! ReachIn(h', n, slots[m])
    {
      assert ReachOf(h, slots[k]) !! ReachOf(h, slots[m]);
    }
    forall k | k in slots && slots[k].Ref? ensures Treelike(h', slots[k].node) {
      assert PieceOk(h', n.level, n.height, slots[k], parts[k]);
    }
  }

  lemma CapWf(h: Heap, n: Node, slots: Contents, parts: map<Key, Json>)
    requires Wf(h) && n !in h && slots.Keys == parts.Keys == Keys(n.shape)
    requires forall k :: k in slots ==> PieceOk(h[n := slots], n.level, n.height, slots[k], parts[k])
    ensures Wf(h[n := slots])
  {
    var h' := h[n := slots];
    forall x | x in h' ensures NodeOk(h', x) {
      if x != n {
        assert NodeOk(h, x);
      }
    }
  }

  lemma CapTree(h: Heap, n: Node, slots: Contents, parts: map<Key, Json>)
    requires n in h && h[n] == slots && slots.Keys == parts.Keys == Keys(n.shape)
    requires forall k :: k in slots ==> PieceOk(h, n.level, n.height, slots[k], parts[k])
    ensures TreeOf(h, n) == Assemble(n.shape, parts)
  {
    forall k | k in slots ensures ValueIn(h, n, slots[k]) == parts[k] {
      assert PieceOk(h, n.level, n.height, slots[k], parts[k]);
    }
    assert (map k | k in h[n] :: ValueIn(h, n, h[n][k])) == parts;
  }

  /** A memory of one level that holds a value. */
  ghost predicate Made(h: Heap, level: nat, height: nat, v: Value, j: Json) {
    Wf(h) && (forall x :: x in h ==> x.level == level) && PieceOk(h, level, height, v, j)
  }

  lemma ScalarMade(level: nat, j: Json)
    requires IsScalar(j)
    ensures Made(map[], level, 0, Scalar(j), j)
  {
  }

  /** A value of its own in memory, on one level, nothing of it shared. */
  method Build(j: Json, ghost level: nat) returns (v: Value, made: set<Node>, ghost height: nat)
    ensures fresh(made) && Made(Snap(made), level, height, v, j)
    decreases j, 1
  {
    if IsScalar(j) {
      v, made, height := Scalar(j), {}, 0;
      ScalarMade(level, j);
      assert Snap(made) == map[];
    } else {
      var slots;
      slots, made, height := BuildSlots(j, level);
      v, made := Cap(j, slots, level, height, made);
      height := height + 1;
    }
  }

  /** The object over the slots. */
  method Cap(j: Json, slots: Contents, ghost level: nat, ghost height: nat, objects: set<Node>)
    returns (v: Value, made: set<Node>)
    requires !IsScalar(j) && slots.Keys == SlotsOf(j).Keys && Pieces(Snap(objects), level, height, slots, SlotsOf(j))
    ensures objects <= made && fresh(made - objects) && Made(Snap(made), level, height + 1, v, j)
  {
    ghost var h := Snap(objects);
    var n := NewNode(ShapeOf(j), slots, level, height, objects);
    v, made := Ref(n), objects + {n};
    CapGrown(h, n, slots, j, Snap(made));
  }

  method NewNode(shape: Shape, slots: Contents, ghost level: nat, ghost height: nat, objects: set<Node>)
    returns (n: Node)
    ensures fresh(n) && n.shape == shape && n.level == level && n.height == height
    ensures Grown(old(Snap(objects)), map[], n, slots, Snap(objects + {n}))
  {
    n := new Node(shape, slots, level, height);
  }

  method BuildSlots(j: Json, ghost level: nat) returns (slots: Contents, made: set<Node>, ghost height: nat)
    requires !IsScalar(j)
    ensures fresh(made) && slots.Keys == SlotsOf(j).Keys
    ensures Pieces(Snap(made), level, height, slots, SlotsOf(j))
    decreases j, 0
  {
    var parts := SlotsOf(j);
    made, height, slots := {}, 0, map[];
    var todo := parts.Keys;
    while todo != {}
      invariant todo <= parts.Keys && slots.Keys == parts.Keys - todo
      invariant fresh(made) && Pieces(Snap(made), level, height, slots, parts)
    {
      var k :| k in todo;
      todo := todo - {k};
      SlotIsSmaller(j, k);
      slots, made, height := BuildSlot(parts, k, slots, level, made, height);
    }
  }

  method BuildSlot(parts: map<Key, Json>, k: Key, before: Contents, ghost level: nat, objects: set<Node>,
                   ghost top: nat)
    returns (slots: Contents, made: set<Node>, ghost height: nat)
    requires k in parts && k !in before && Pieces(Snap(objects), level, top, before, parts)
    ensures objects <= made && fresh(made - objects) && slots.Keys == before.Keys + {k}
    ensures Pieces(Snap(made), level, height, slots, parts)
    decreases parts[k], 2
  {
    ghost var h := Snap(objects);
    var part;
    part, made, height := Build(parts[k], level);
    ghost var more, both := Snap(made), Snap(objects + made);
    SnapJoined(objects, made);
    AddJoined(h, level, top, before, parts, more, height, k, part, both);
    return before[k := part], objects + made, top + height;
  }

  lemma AddJoined(h: Heap, level: nat, height: nat, slots: Contents, parts: map<Key, Json>,
                  more: Heap, top: nat, k: Key, v: Value, both: Heap)
    requires Pieces(h, level, height, slots, parts) && k in parts && k !in slots
    requires Made(more, level, top, v, parts[k]) && h.Keys !! more.Keys && Joined(h, more, both)
    ensures Pieces(both, level, height + top, slots[k := v], parts)
  {
    assert both == h + more;
    PieceKept(more, more, level, top, height + top, v, parts[k]);
    AddPiece(h, level, height, slots, parts, more, height + top, k, v);
  }

  lemma CapGrown(h: Heap, n: Node, slots: Contents, j: Json, h': Heap)
    requires !IsScalar(j) && n !in h && n.shape == ShapeOf(j)
    requires Pieces(h, n.level, n.height, slots, SlotsOf(j)) && slots.Keys == SlotsOf(j).Keys
    requires Grown(h, map[], n, slots, h')
    ensures Made(h', n.level, n.height + 1, Ref(n), j)
  {
    GrownIs(h, map[], n, slots, h');
    assert h + map[] == h;
    CapPieces(h, n, slots, j);
  }

  lemma MadeJoined(h: Heap, made: Heap, level: nat, height: nat, v: Value, j: Json, h': Heap)
    requires Wf(h) && Made(made, level, height, v, j) && h.Keys !! made.Keys && Joined(h, made, h')
    ensures Wf(h') && Extended(h, h')
    ensures v.Ref? ==> v.node in h' && v.node.level == level && TreeOf(h', v.node) == j && OwnTree(h, level, h', v.node)
  {
    assert h' == h + made;
    WfJoined(h, made);
    PieceKept(made, h', level, height, height, v, j);
  }

  /** A tree of new objects on one level, nothing of it shared. */
  ghost predicate OwnTree(h: Heap, level: nat, h': Heap, n: Node) {
    n in h' && Treelike(h', n) && forall x :: x in Reach(h', n) ==> x !in h && x.level == level
  }

  /** A new object beside those that are there. */
  method BuildInto(j: Json, objects: set<Node>, ghost level: nat) returns (n: Node, all: set<Node>)
    requires !IsScalar(j) && Wf(Snap(objects))
    ensures objects <= all && fresh(all - objects) && Wf(Snap(all)) && Extended(old(Snap(objects)), Snap(all))
    ensures n in all && n.level == level && TreeOf(Snap(all), n) == j
    ensures OwnTree(old(Snap(objects)), level, Snap(all), n)
    ensures forall x :: x in all - objects ==> x.level == level
  {
    ghost var h := Snap(objects);
    var v, made;
    ghost var height;
    v, made, height := Build(j, level);
    ghost var built := Snap(made);
    all := objects + made;
    ghost var now := Snap(all);
    SnapJoined(objects, made);
    MadeJoined(h, built, level, height, v, j, now);
    n := v.node;
  }

  // ---------------------------------------------------------------- reading

  /** The JSON value of an object, read off the memory. */
  method ToJson(n: Node, ghost objects: set<Node>) returns (j: Json)
    requires n in objects && Wf(Snap(objects))
    ensures j == TreeOf(Snap(objects), n)
    decreases n.level, n.height
  {
    ghost var h := Snap(objects);
    assert NodeOk(h, n);
    var read: map<Key, Json> := map[];
    var todo := n.slots.Keys;
    while todo != {}
      invariant todo <= n.slots.Keys && read.Keys == n.slots.Keys - todo
      invariant forall k :: k in read ==> read[k] == ValueIn(h, n, h[n][k])
    {
      var k :| k in todo;
      todo := todo - {k};
      var part;
      match n.slots[k] {
        case Scalar(v) => part := v;
        case Ref(c) => part := ToJson(c, objects);
      }
      read := read[k := part];
    }
    assert read == map k | k in h[n] :: ValueIn(h, n, h[n][k]);
    return Assemble(n.shape, read);
  }
}
