/** pkg/agent/service/flow.go: references in the inputs of a flow step, and what a pass over them means. */
module FlowJson {
  import opened Wrappers

  datatype Json =
    | JNull
    | JBool(b: bool)
    | JNum(n: real)
    | JStr(s: string)
    | JArr(items: seq<Json>)
    | JObj(fields: map<string, Json>)

  /** How one rewriting pass recognises a reference, and what the reference stands for, if anything. */
  datatype Resolver = Resolver(isRef: string -> bool, value: string -> Option<Json>)

  /** The pure meaning of a pass: every reference string replaced by what it stands for, everything
      else as it is; no meaning at all if some reference stands for nothing. */
  function Subst(r: Resolver, j: Json): Option<Json> {
    match j
    case JStr(s) => if r.isRef(s) then r.value(s) else Some(j)
    case JArr(items) =>
      if exists i :: 0 <= i < |items| && Subst(r, items[i]).None? then None
      else Some(JArr(seq(|items|, i requires 0 <= i < |items| => Subst(r, items[i]).value)))
    case JObj(fields) =>
      if exists k :: k in fields && Subst(r, fields[k]).None? then None
      else Some(JObj(map k | k in fields :: Subst(r, fields[k]).value))
    case _ => Some(j)
  }

  /** Some string at or below `j` is a reference to nothing. */
  ghost predicate Dangling(r: Resolver, j: Json) {
    match j
    case JStr(s) => r.isRef(s) && r.value(s).None?
    case JArr(items) => exists i :: 0 <= i < |items| && Dangling(r, items[i])
    case JObj(fields) => exists k :: k in fields && Dangling(r, fields[k])
    case _ => false
  }

  /** A pass has a result unless something dangles. */
  lemma {:induction false} SubstFailsIffDangling(r: Resolver, j: Json)
    ensures Subst(r, j).None? <==> Dangling(r, j)
  {
    match j
    case JArr(items) =>
      forall i | 0 <= i < |items| ensures Subst(r, items[i]).None? <==> Dangling(r, items[i]) {
        SubstFailsIffDangling(r, items[i]);
      }
    case JObj(fields) =>
      forall k | k in fields ensures Subst(r, fields[k]).None? <==> Dangling(r, fields[k]) {
        SubstFailsIffDangling(r, fields[k]);
      }
    case _ =>
  }

  ghost predicate HasRef(r: Resolver, j: Json) {
    match j
    case JStr(s) => r.isRef(s)
    case JArr(items) => exists i :: 0 <= i < |items| && HasRef(r, items[i])
    case JObj(fields) => exists k :: k in fields && HasRef(r, fields[k])
    case _ => false
  }

  /** A tree without references is left exactly as it is. */
  lemma {:induction false} SubstLeavesRest(r: Resolver, j: Json)
    requires !HasRef(r, j)
    ensures Subst(r, j) == Some(j)
  {
    match j
    case JArr(items) =>
      forall i | 0 <= i < |items| ensures Subst(r, items[i]) == Some(items[i]) {
        SubstLeavesRest(r, items[i]);
      }
      assert Subst(r, j).value.items == items;
    case JObj(fields) =>
      forall k | k in fields ensures Subst(r, fields[k]) == Some(fields[k]) {
        SubstLeavesRest(r, fields[k]);
      }
      assert Subst(r, j).value.fields == fields;
    case _ =>
  }

  /** `after` is `before` with some of its references replaced by what they stand for, and nothing
      else touched. */
  ghost predicate Partly(r: Resolver, before: Json, after: Json) {
    match before
    case JArr(items) =>
      && after.JArr? && |after.items| == |items|
      && forall i :: 0 <= i < |items| ==> Partly(r, items[i], after.items[i])
    case JObj(fields) =>
      && after.JObj? && after.fields.Keys == fields.Keys
      && forall k :: k in fields ==> Partly(r, fields[k], after.fields[k])
    case _ => after == before || Subst(r, before) == Some(after)
  }

  /** What a pass may leave: the substitution if there is one, else a part of it. */
  ghost predicate Outcome(r: Resolver, before: Json, after: Json, ok: bool) {
    && (ok <==> Subst(r, before).Some?)
    && (ok ==> Subst(r, before) == Some(after))
    && Partly(r, before, after)
  }

  lemma {:induction false} NothingIsPartly(r: Resolver, j: Json)
    ensures Partly(r, j, j)
  {
    match j
    case JArr(items) =>
      forall i | 0 <= i < |items| ensures Partly(r, items[i], items[i]) {
        NothingIsPartly(r, items[i]);
      }
    case JObj(fields) =>
      forall k | k in fields ensures Partly(r, fields[k], fields[k]) {
        NothingIsPartly(r, fields[k]);
      }
    case _ =>
  }

  lemma {:induction false} AllIsPartly(r: Resolver, j: Json)
    requires Subst(r, j).Some?
    ensures Partly(r, j, Subst(r, j).value)
  {
    match j
    case JArr(items) =>
      forall i | 0 <= i < |items| ensures Partly(r, items[i], Subst(r, j).value.items[i]) {
        AllIsPartly(r, items[i]);
      }
    case JObj(fields) =>
      forall k | k in fields ensures Partly(r, fields[k], Subst(r, j).value.fields[k]) {
        AllIsPartly(r, fields[k]);
      }
    case _ =>
  }

  // ---------------------------------------------------------------- objects and their slots

  datatype Key = Name(name: string) | Index(index: nat)

  predicate IsScalar(j: Json) {
    !j.JArr? && !j.JObj?
  }

  /** The keys of an object or an array. */
  datatype Shape = Object(names: set<string>) | Array(length: nat)

  function Keys(shape: Shape): set<Key> {
    match shape
    case Object(names) => set n | n in names :: Name(n)
    case Array(length) => set i | 0 <= i < length :: Index(i)
  }

  /** The value of an object or array, given the values of its slots. */
  function Assemble(shape: Shape, slots: map<Key, Json>): Json
    requires slots.Keys == Keys(shape)
  {
    match shape
    case Object(names) => JObj(map n | n in names :: slots[Name(n)])
    case Array(length) => JArr(seq(length, i requires 0 <= i < length && Index(i) in slots => slots[Index(i)]))
  }

  /** A pass over an assembled value is a pass over each of its slots. */
  lemma SubstOfAssembled(r: Resolver, shape: Shape, was: map<Key, Json>, now: map<Key, Json>)
    requires was.Keys == now.Keys == Keys(shape)
    requires forall k :: k in was ==> Subst(r, was[k]) == Some(now[k])
    ensures Subst(r, Assemble(shape, was)) == Some(Assemble(shape, now))
  {
    var before, after := Assemble(shape, was), Assemble(shape, now);
    match shape
    case Object(names) =>
      forall n | n in names ensures Subst(r, before.fields[n]) == Some(after.fields[n]) {
        assert Name(n) in was;
      }
      assert Subst(r, before).value.fields == after.fields;
    case Array(length) =>
      forall i | 0 <= i < length ensures Subst(r, before.items[i]) == Some(after.items[i]) {
        assert Index(i) in was;
      }
      assert Subst(r, before).value.items == after.items;
  }

  lemma PartlyOfAssembled(r: Resolver, shape: Shape, was: map<Key, Json>, now: map<Key, Json>)
    requires was.Keys == now.Keys == Keys(shape)
    requires forall k :: k in was ==> Partly(r, was[k], now[k])
    ensures Partly(r, Assemble(shape, was), Assemble(shape, now))
  {
    var before, after := Assemble(shape, was), Assemble(shape, now);
    match shape
    case Object(names) =>
      forall n | n in names ensures Partly(r, before.fields[n], after.fields[n]) {
        assert Name(n) in was;
      }
    case Array(length) =>
      forall i | 0 <= i < length ensures Partly(r, before.items[i], after.items[i]) {
        assert Index(i) in was;
      }
  }

  lemma SubstOfAssembledFails(r: Resolver, shape: Shape, was: map<Key, Json>, k: Key)
    requires was.Keys == Keys(shape)
    requires k in was && Subst(r, was[k]).None?
    ensures Subst(r, Assemble(shape, was)).None?
  {
    var before := Assemble(shape, was);
    match shape
    case Object(names) => assert k.name in names && before.fields[k.name] == was[k];
    case Array(length) => assert 0 <= k.index < length && before.items[k.index] == was[k];
  }

  function ShapeOf(j: Json): Shape
    requires !IsScalar(j)
  {
    if j.JObj? then Object(j.fields.Keys) else Array(|j.items|)
  }

  function SlotsOf(j: Json): map<Key, Json>
    requires !IsScalar(j)
  {
    if j.JObj? then map k | k in Keys(ShapeOf(j)) :: j.fields[k.name]
    else map k | k in Keys(ShapeOf(j)) :: j.items[k.index]
  }

  lemma AssembledFromSlots(j: Json)
    requires !IsScalar(j)
    ensures SlotsOf(j).Keys == Keys(ShapeOf(j))
    ensures Assemble(ShapeOf(j), SlotsOf(j)) == j
  {
    var made := Assemble(ShapeOf(j), SlotsOf(j));
    if j.JObj? {
      assert made.fields == j.fields;
    } else {
      assert made.items == j.items;
    }
  }

  lemma SlotIsSmaller(j: Json, k: Key)
    requires !IsScalar(j) && k in SlotsOf(j)
    ensures SlotsOf(j)[k] < j
  {
  }
}
