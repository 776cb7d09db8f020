/** pkg/agent/service/flow.go: the pass that fills in the service's inputs and the one that fills in
    what earlier steps left, against doing both at once. */
module FlowPasses {
  import opened Wrappers
  import opened FlowJson
  import opened FlowRefs

  /** Both kinds of reference in one go. */
  function Both(lib: Library, inputs: Json, store: map<string, Json>): Resolver {
    Resolver(IsPassedRef,
             (s: string) => if HasFlowInputsExpr(s) then Deferred(lib, inputs).value(s)
                            else PassedValue(lib, store, s))
  }

  function Then(first: Option<Json>, r: Resolver): Option<Json> {
    match first
    case None => None
    case Some(j) => Subst(r, j)
  }

  /** No `$inputs` reference in `j` stands for a value that itself holds a reference. */
  ghost predicate PlainInputs(lib: Library, inputs: Json, j: Json) {
    match j
    case JStr(s) =>
      HasFlowInputsExpr(s) ==>
        var v := Deferred(lib, inputs).value(s);
        v.Some? ==> !HasRef(Passed(lib, map[]), v.value)
    case JArr(items) => forall i :: 0 <= i < |items| ==> PlainInputs(lib, inputs, items[i])
    case JObj(fields) => forall k :: k in fields ==> PlainInputs(lib, inputs, fields[k])
    case _ => true
  }

  lemma {:induction false} SameReferences(lib: Library, store: map<string, Json>, j: Json)
    ensures HasRef(Passed(lib, store), j) <==> HasRef(Passed(lib, map[]), j)
  {
    match j
    case JArr(items) =>
      forall i | 0 <= i < |items|
        ensures HasRef(Passed(lib, store), items[i]) <==> HasRef(Passed(lib, map[]), items[i])
      {
        SameReferences(lib, store, items[i]);
      }
    case JObj(fields) =>
      forall k | k in fields
        ensures HasRef(Passed(lib, store), fields[k]) <==> HasRef(Passed(lib, map[]), fields[k])
      {
        SameReferences(lib, store, fields[k]);
      }
    case _ =>
  }

  /** The passes together are one simultaneous substitution, as long as the service's inputs bring
      in no references of their own. */
  lemma {:induction false} TwoPassesAsOne(lib: Library, inputs: Json, store: map<string, Json>, j: Json)
    requires PlainInputs(lib, inputs, j)
    ensures Then(Subst(Deferred(lib, inputs), j), Passed(lib, store)) == Subst(Both(lib, inputs, store), j)
  {
    var first, second, both := Deferred(lib, inputs), Passed(lib, store), Both(lib, inputs, store);
    match j
    case JStr(s) =>
      if HasFlowInputsExpr(s) {
        assert s[0] == INPUTS[0];
        var v := first.value(s);
        if v.Some? {
          SameReferences(lib, store, v.value);
          SubstLeavesRest(second, v.value);
        }
      }
    case JArr(items) =>
      forall i | 0 <= i < |items| ensures Then(Subst(first, items[i]), second) == Subst(both, items[i]) {
        TwoPassesAsOne(lib, inputs, store, items[i]);
      }
      ItemsInTwoPasses(first, second, both, items);
    case JObj(fields) =>
      forall k | k in fields ensures Then(Subst(first, fields[k]), second) == Subst(both, fields[k]) {
        TwoPassesAsOne(lib, inputs, store, fields[k]);
      }
      FieldsInTwoPasses(first, second, both, fields);
    case _ =>
  }

  lemma ItemsInTwoPasses(first: Resolver, second: Resolver, both: Resolver, items: seq<Json>)
    requires forall i :: 0 <= i < |items| ==> Then(Subst(first, items[i]), second) == Subst(both, items[i])
    ensures Then(Subst(first, JArr(items)), second) == Subst(both, JArr(items))
  {
    var mid := Subst(first, JArr(items));
    if mid.Some? {
      forall i | 0 <= i < |items| ensures Subst(second, mid.value.items[i]) == Subst(both, items[i]) {
        assert Subst(first, items[i]).Some?;
      }
      if Subst(both, JArr(items)).Some? {
        assert Subst(second, mid.value).value.items == Subst(both, JArr(items)).value.items;
      }
    } else {
      var i :| 0 <= i < |items| && Subst(first, items[i]).None?;
      assert Subst(both, items[i]).None?;
    }
  }

  lemma FieldsInTwoPasses(first: Resolver, second: Resolver, both: Resolver, fields: map<string, Json>)
    requires forall k :: k in fields ==> Then(Subst(first, fields[k]), second) == Subst(both, fields[k])
    ensures Then(Subst(first, JObj(fields)), second) == Subst(both, JObj(fields))
  {
    var mid := Subst(first, JObj(fields));
    if mid.Some? {
      forall k | k in fields ensures Subst(second, mid.value.fields[k]) == Subst(both, fields[k]) {
        assert Subst(first, fields[k]).Some?;
      }
      if Subst(both, JObj(fields)).Some? {
        assert Subst(second, mid.value).value.fields == Subst(both, JObj(fields)).value.fields;
      }
    } else {
      var k :| k in fields && Subst(first, fields[k]).None?;
      assert Subst(both, fields[k]).None?;
    }
  }

  // ---------------------------------------------------------------- when the passes differ

  /** With nothing in the store every reference to a step dangles. */
  lemma {:induction false} EmptyStoreDangles(lib: Library, j: Json)
    ensures HasRef(Passed(lib, map[]), j) <==> Dangling(Passed(lib, map[]), j)
  {
    match j
    case JArr(items) =>
      forall i | 0 <= i < |items|
        ensures HasRef(Passed(lib, map[]), items[i]) <==> Dangling(Passed(lib, map[]), items[i])
      {
        EmptyStoreDangles(lib, items[i]);
      }
    case JObj(fields) =>
      forall k | k in fields
        ensures HasRef(Passed(lib, map[]), fields[k]) <==> Dangling(Passed(lib, map[]), fields[k])
      {
        EmptyStoreDangles(lib, fields[k]);
      }
    case _ =>
  }

  /** The store keys that `j` refers to. */
  ghost function KeysIn(j: Json): set<string> {
    match j
    case JStr(s) => if IsPassedRef(s) then {SplitRef(s[1..]).0} else {}
    case JArr(items) => set i, k | 0 <= i < |items| && k in KeysIn(items[i]) :: k
    case JObj(fields) => set f, k | f in fields && k in KeysIn(fields[f]) :: k
    case _ => {}
  }

  /** A plain text, the same whichever path is read in it. */
  const TEXT := JStr("x")

  /** A store that answers every key it has with that text. */
  ghost predicate Flat(store: map<string, Json>) {
    forall k :: k in store ==> store[k] == TEXT
  }

  lemma ReadingPlain(lib: Library, text: string, path: string)
    requires text != "" && text[0] !in " \t\r\n" && text[0] != '{' && text[0] != '['
    ensures Reading(lib, JStr(text), path) == Some(JStr(text))
  {
  }

  lemma ReadingText(lib: Library, path: string)
    ensures Reading(lib, TEXT, path) == Some(TEXT)
  {
    var text := "x";
    assert text[0] == 'x';
    ReadingPlain(lib, text, path);
  }

  lemma FlatAnswers(lib: Library, store: map<string, Json>, ref: string)
    requires Flat(store) && IsPassedRef(ref)
    ensures PassedValue(lib, store, ref) == if SplitRef(ref[1..]).0 in store then Some(TEXT) else None
  {
    ReadingText(lib, SplitRef(ref[1..]).1);
  }

  /** With all its keys in the store, a tree has a simultaneous substitution if its first pass succeeds. */
  lemma {:induction false} BothSucceeds(lib: Library, inputs: Json, store: map<string, Json>, j: Json)
    requires Flat(store) && KeysIn(j) <= store.Keys && Subst(Deferred(lib, inputs), j).Some?
    ensures Subst(Both(lib, inputs, store), j).Some?
  {
    match j
    case JStr(s) =>
      if IsPassedRef(s) && !HasFlowInputsExpr(s) {
        FlatAnswers(lib, store, s);
      }
    case JArr(items) =>
      forall i | 0 <= i < |items| ensures Subst(Both(lib, inputs, store), items[i]).Some? {
        forall k | k in KeysIn(items[i]) ensures k in KeysIn(j) {
        }
        BothSucceeds(lib, inputs, store, items[i]);
      }
    case JObj(fields) =>
      forall f | f in fields ensures Subst(Both(lib, inputs, store), fields[f]).Some? {
        forall k | k in KeysIn(fields[f]) ensures k in KeysIn(j) {
        }
        BothSucceeds(lib, inputs, store, fields[f]);
      }
    case _ =>
  }

  /** Over a flat store a value that holds a reference never comes out as it went in. */
  lemma {:induction false} ReferencesChange(lib: Library, store: map<string, Json>, v: Json)
    requires Flat(store) && HasRef(Passed(lib, store), v)
    ensures Subst(Passed(lib, store), v) != Some(v)
  {
    var r := Passed(lib, store);
    match v
    case JStr(s) =>
      FlatAnswers(lib, store, s);
    case JArr(items) =>
      var i :| 0 <= i < |items| && HasRef(r, items[i]);
      ReferencesChange(lib, store, items[i]);
      assert Subst(r, v).Some? ==> Subst(r, v).value.items[i] == Subst(r, items[i]).value;
    case JObj(fields) =>
      var k :| k in fields && HasRef(r, fields[k]);
      ReferencesChange(lib, store, fields[k]);
      assert Subst(r, v).Some? ==> Subst(r, v).value.fields[k] == Subst(r, fields[k]).value;
    case _ =>
  }

  /** So a tree into which the inputs bring a reference tells the passes from the substitution. */
  lemma {:induction false} PassesDiffer(lib: Library, inputs: Json, store: map<string, Json>, j: Json)
    requires Flat(store) && Subst(Deferred(lib, inputs), j).Some? && !PlainInputs(lib, inputs, j)
    requires Subst(Both(lib, inputs, store), j).Some?
    ensures Subst(Passed(lib, store), Subst(Deferred(lib, inputs), j).value) != Subst(Both(lib, inputs, store), j)
  {
    var first, second, both := Deferred(lib, inputs), Passed(lib, store), Both(lib, inputs, store);
    var mid := Subst(first, j).value;
    match j
    case JStr(s) =>
      assert s[0] == INPUTS[0];
      SameReferences(lib, store, mid);
      ReferencesChange(lib, store, mid);
    case JArr(items) =>
      var i :| 0 <= i < |items| && !PlainInputs(lib, inputs, items[i]);
      PassesDiffer(lib, inputs, store, items[i]);
      assert mid.items[i] == Subst(first, items[i]).value;
      assert Subst(both, j).value.items[i] == Subst(both, items[i]).value;
      assert Subst(second, mid).Some? ==> Subst(second, mid).value.items[i] == Subst(second, mid.items[i]).value;
    case JObj(fields) =>
      var k :| k in fields && !PlainInputs(lib, inputs, fields[k]);
      PassesDiffer(lib, inputs, store, fields[k]);
      assert mid.fields[k] == Subst(first, fields[k]).value;
      assert Subst(both, j).value.fields[k] == Subst(both, fields[k]).value;
      assert Subst(second, mid).Some? ==> Subst(second, mid).value.fields[k] == Subst(second, mid.fields[k]).value;
    case _ =>
  }

  lemma {:induction false} BothFailsWithFirst(lib: Library, inputs: Json, store: map<string, Json>, j: Json)
    requires Subst(Deferred(lib, inputs), j).None?
    ensures Subst(Both(lib, inputs, store), j).None?
  {
    match j
    case JStr(s) =>
      assert s[0] == INPUTS[0];
    case JArr(items) =>
      var i :| 0 <= i < |items| && Subst(Deferred(lib, inputs), items[i]).None?;
      BothFailsWithFirst(lib, inputs, store, items[i]);
    case JObj(fields) =>
      var k :| k in fields && Subst(Deferred(lib, inputs), fields[k]).None?;
      BothFailsWithFirst(lib, inputs, store, fields[k]);
    case _ =>
  }

  /** Whatever the store, the two passes give what one simultaneous substitution gives. */
  ghost predicate PassesAgree(lib: Library, inputs: Json, j: Json) {
    forall store: map<string, Json> {:trigger Passed(lib, store)} ::
      Then(Subst(Deferred(lib, inputs), j), Passed(lib, store)) == Subst(Both(lib, inputs, store), j)
  }

  /** For every tree, whatever else it refers to: the passes agree with the substitution exactly if
      the first one fails, or the service's inputs bring in no references of their own. */
  lemma PassesAgreeIff(lib: Library, inputs: Json, j: Json)
    ensures PassesAgree(lib, inputs, j) <==> Subst(Deferred(lib, inputs), j).None? || PlainInputs(lib, inputs, j)
  {
    if Subst(Deferred(lib, inputs), j).None? {
      forall store: map<string, Json>
        ensures Then(Subst(Deferred(lib, inputs), j), Passed(lib, store)) == Subst(Both(lib, inputs, store), j)
      {
        BothFailsWithFirst(lib, inputs, store, j);
      }
    } else if PlainInputs(lib, inputs, j) {
      forall store: map<string, Json>
        ensures Then(Subst(Deferred(lib, inputs), j), Passed(lib, store)) == Subst(Both(lib, inputs, store), j)
      {
        TwoPassesAsOne(lib, inputs, store, j);
      }
    } else {
      var store: map<string, Json> := map k | k in KeysIn(j) :: TEXT;
      BothSucceeds(lib, inputs, store, j);
      PassesDiffer(lib, inputs, store, j);
      var second := Passed(lib, store);
      assert Then(Subst(Deferred(lib, inputs), j), second) != Subst(Both(lib, inputs, store), j);
    }
  }

  lemma OneReferenceAgreesIff(lib: Library, inputs: Json, s: string, v: Json)
    requires HasFlowInputsExpr(s) && Deferred(lib, inputs).value(s) == Some(v)
    ensures PassesAgree(lib, inputs, JStr(s)) <==> !HasRef(Passed(lib, map[]), v)
  {
    PassesAgreeIff(lib, inputs, JStr(s));
  }

  // ---------------------------------------------------------------- inputs that two steps share

  /** With all its keys in the store no reference of a tree dangles. */
  lemma {:induction false} PassedSucceeds(lib: Library, store: map<string, Json>, j: Json)
    requires Flat(store) && KeysIn(j) <= store.Keys
    ensures Subst(Passed(lib, store), j).Some?
  {
    match j
    case JStr(s) =>
      if IsPassedRef(s) {
        FlatAnswers(lib, store, s);
      }
    case JArr(items) =>
      forall i | 0 <= i < |items| ensures Subst(Passed(lib, store), items[i]).Some? {
        forall k | k in KeysIn(items[i]) ensures k in KeysIn(j) {
        }
        PassedSucceeds(lib, store, items[i]);
      }
    case JObj(fields) =>
      forall f | f in fields ensures Subst(Passed(lib, store), fields[f]).Some? {
        forall k | k in KeysIn(fields[f]) ensures k in KeysIn(j) {
        }
        PassedSucceeds(lib, store, fields[f]);
      }
    case _ =>
  }

  /** Where the pass over one step comes through, another step that holds the same object has what it had. */
  ghost predicate OtherHolderUntouched(lib: Library, j: Json) {
    forall store: map<string, Json> {:trigger Passed(lib, store)} ::
      Subst(Passed(lib, store), j).Some? ==> Subst(Passed(lib, store), j) == Some(j)
  }

  /** That is so for every store exactly if the object holds no references. */
  lemma OtherHolderUntouchedIff(lib: Library, j: Json)
    ensures OtherHolderUntouched(lib, j) <==> !HasRef(Passed(lib, map[]), j)
  {
    if HasRef(Passed(lib, map[]), j) {
      var store: map<string, Json> := map k | k in KeysIn(j) :: TEXT;
      PassedSucceeds(lib, store, j);
      SameReferences(lib, store, j);
      ReferencesChange(lib, store, j);
      assert Subst(Passed(lib, store), j) != Some(j);
    } else {
      forall store: map<string, Json> ensures Subst(Passed(lib, store), j) == Some(j) {
        SameReferences(lib, store, j);
        SubstLeavesRest(Passed(lib, store), j);
      }
    }
  }

  // ---------------------------------------------------------------- a concrete failure

  const PRICE := INPUTS + ".price"

  /** Text from the service's inputs that begins with a dollar is taken for a reference by the second
      pass, and sinks the step. */
  lemma InputsAreReadAgain(lib: Library, inputs: Json)
    requires inputs.JObj? && Query(lib, ".price", inputs) == Some(JStr("$5"))
    ensures Subst(Both(lib, inputs, map[]), JStr(PRICE)) == Some(JStr("$5"))
    ensures Then(Subst(Deferred(lib, inputs), JStr(PRICE)), Passed(lib, map[])) == None
    ensures !PassesAgree(lib, inputs, JStr(PRICE))
  {
    assert HasFlowInputsExpr(PRICE) && IsPassedRef(PRICE);
    assert PRICE[|INPUTS|..] == ".price";
    assert Deferred(lib, inputs).value(PRICE) == Some(JStr("$5"));
    OneReferenceAgreesIff(lib, inputs, PRICE, JStr("$5"));
  }
}
