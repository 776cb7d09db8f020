/** pkg/agent/service/flow.go: the steps of a flow and their inputs, held in place. */
module FlowSteps {
  import opened Wrappers
  import opened FlowJson
  import opened FlowRefs
  import opened FlowHeap
  import opened FlowRewrite

  // ---------------------------------------------------------------- reading a flow

  /** A step as declared: its inputs are absent, one reference, or an object. */
  datatype Declared = Declared(id: string, command: string, initKey: string, data: Option<Json>)

  datatype DecodeError =
    | NotAnObject
    | IdRequired
    | IdNotString
    | CommandRequired
    | CommandNotString
    | InputsNotAReference
    | InputsWrongType
    | IdRepeated(id: string)

  function DecodeStep(j: Json): Result<Declared, DecodeError> {
    if !j.JObj? then Err(NotAnObject)
    else
      var m := j.fields;
      if "$id" !in m then Err(IdRequired)
      else if !m["$id"].JStr? then Err(IdNotString)
      else if "$command" !in m then Err(CommandRequired)
      else if !m["$command"].JStr? then Err(CommandNotString)
      else
        var id, command := m["$id"].s, m["$command"].s;
        if "inputs" !in m then Ok(Declared(id, command, "", None))
        else if m["inputs"].JStr? then
          if HasFlowInputsExpr(m["inputs"].s) then Ok(Declared(id, command, m["inputs"].s, None))
          else Err(InputsNotAReference)
        else if m["inputs"].JObj? then Ok(Declared(id, command, "", Some(m["inputs"])))
        else Err(InputsWrongType)
  }

  ghost predicate DistinctIds(steps: seq<Declared>) {
    forall i, j :: 0 <= i < j < |steps| ==> steps[i].id != steps[j].id
  }

  /** `$inputs`, alone or in front of a dot. */
  ghost predicate IsInputsText(s: string) {
    s == "$inputs" || (|s| > 7 && s[..8] == "$inputs.")
  }

  /** A step is an object with texts for `$id` and `$command`, and `inputs` that are absent, a reference to the
      service's inputs, or an object. */
  ghost predicate IsStep(j: Json) {
    && j.JObj?
    && "$id" in j.fields && j.fields["$id"].JStr?
    && "$command" in j.fields && j.fields["$command"].JStr?
    && ("inputs" in j.fields ==>
          || (j.fields["inputs"].JStr? && IsInputsText(j.fields["inputs"].s))
          || j.fields["inputs"].JObj?)
  }

  lemma StepIsDecoded(j: Json)
    ensures DecodeStep(j).Ok? <==> IsStep(j)
    ensures DecodeStep(j).Ok? ==>
              var d, m := DecodeStep(j).value, j.fields;
              && m["$id"] == JStr(d.id) && m["$command"] == JStr(d.command)
              && ("inputs" !in m ==> d.data == None && d.initKey == "")
              && ("inputs" in m && m["inputs"].JObj? ==> d.data == Some(m["inputs"]) && d.initKey == "")
              && ("inputs" in m && m["inputs"].JStr? ==> d.data == None && m["inputs"] == JStr(d.initKey))
  {
    var lib := Library((_, _) => None, _ => None);
    if j.JObj? && "inputs" in j.fields && j.fields["inputs"].JStr? {
      InputsReference(lib, JNull, j.fields["inputs"].s);
    }
  }

  /** No two of them have the same id. */
  ghost predicate AreSteps(items: seq<Json>) {
    && (forall i :: 0 <= i < |items| ==> IsStep(items[i]))
    && forall i, j :: 0 <= i < j < |items| ==> items[i].fields["$id"] != items[j].fields["$id"]
  }

  lemma StepsAccepted(items: seq<Json>, steps: seq<Declared>)
    requires |steps| == |items| && DistinctIds(steps)
    requires forall i :: 0 <= i < |items| ==> DecodeStep(items[i]) == Ok(steps[i])
    ensures AreSteps(items)
  {
    forall i | 0 <= i < |items| ensures IsStep(items[i]) && items[i].fields["$id"] == JStr(steps[i].id) {
      StepIsDecoded(items[i]);
    }
  }

  lemma StepRefused(items: seq<Json>, i: nat, k: nat)
    requires k <= i < |items|
    requires DecodeStep(items[i]).Err?
          || (k < i && DecodeStep(items[k]).Ok? && DecodeStep(items[k]).value.id == DecodeStep(items[i]).value.id)
    ensures !AreSteps(items)
  {
    StepIsDecoded(items[i]);
    StepIsDecoded(items[k]);
  }

  /** A flow is accepted exactly if every step is, and no id occurs twice. */
  method UnmarshalFlow(items: seq<Json>) returns (r: Result<seq<Declared>, DecodeError>)
    ensures r.Ok? ==>
              && |r.value| == |items|
              && DistinctIds(r.value)
              && forall i :: 0 <= i < |items| ==> DecodeStep(items[i]) == Ok(r.value[i])
    ensures r.Ok? <==> AreSteps(items)
    ensures r.Err? ==>
              || (exists i :: 0 <= i < |items| && DecodeStep(items[i]) == Err(r.error))
              || (exists i, j :: 0 <= i < j < |items| && DecodeStep(items[i]).Ok? && DecodeStep(items[j]).Ok? &&
                    DecodeStep(items[i]).value.id == DecodeStep(items[j]).value.id &&
                    r.error == IdRepeated(DecodeStep(items[j]).value.id))
  {
    var ids: set<string> := {};
    var steps: seq<Declared> := [];
    var i := 0;
    while i < |items|
      invariant 0 <= i <= |items| && |steps| == i
      invariant forall k :: 0 <= k < i ==> DecodeStep(items[k]) == Ok(steps[k]) && steps[k].id in ids
      invariant forall id :: id in ids ==> exists k :: 0 <= k < i && steps[k].id == id
      invariant DistinctIds(steps)
    {
      match DecodeStep(items[i]) {
        case Err(e) =>
          StepRefused(items, i, i);
          return Err(e);
        case Ok(step) =>
          if step.id in ids {
            var k :| 0 <= k < i && steps[k].id == step.id;
            assert DecodeStep(items[k]).value.id == DecodeStep(items[i]).value.id;
            StepRefused(items, i, k);
            return Err(IdRepeated(step.id));
          }
          ids := ids + {step.id};
          steps := steps + [step];
      }
      i := i + 1;
    }
    StepsAccepted(items, steps);
    return Ok(steps);
  }

  // ---------------------------------------------------------------- the inputs of one step

  /** The inputs once the service's own inputs are filled in; nothing if the step is to be refused. */
  function AfterDeferred(lib: Library, initKey: string, data: Option<Json>, inputs: Json): Option<Option<Json>> {
    if HasFlowInputsExpr(initKey) then
      var found := Query(lib, initKey[|INPUTS|..], inputs);
      if found.Some? && found.value.JObj? then Some(found) else None
    else AfterPass(Deferred(lib, inputs), data)
  }

  /** The inputs after a pass over them; absent inputs stay absent. */
  function AfterPass(r: Resolver, data: Option<Json>): Option<Option<Json>> {
    if data.None? then Some(None)
    else
      var found := Subst(r, data.value);
      if found.None? then None else Some(found)
  }

  /** What a pass may leave of inputs. */
  ghost predicate LeftBy(r: Resolver, before: Option<Json>, after: Option<Json>) {
    match before
    case None => after.None?
    case Some(j) => after.Some? && Partly(r, j, after.value)
  }

  lemma NothingIsLeft(r: Resolver, data: Option<Json>)
    ensures LeftBy(r, data, data)
  {
    if data.Some? {
      NothingIsPartly(r, data.value);
    }
  }

  /** The value of the inputs that a step holds. */
  ghost function InputsOf(h: Heap, data: Option<Node>): Option<Json> {
    if data.Some? then Some(TreeOf(h, data.value)) else None
  }

  /** The pass that fills in the service's inputs; `locate` hands out what a path leads to in them, if that
      is an object in memory. */
  function DeferredPass(lib: Library, inputs: Json, locate: string -> Option<Node>): Pass {
    Pass(Deferred(lib, inputs), (s: string) => if HasFlowInputsExpr(s) then locate(s[|INPUTS|..]) else None)
  }

  /** What a pass over the inputs of one step does: to memory, to what the step holds, to its value. */
  ghost predicate PassedOver(p: Pass, bound: nat, h: Heap, data: Option<Node>, h': Heap, ok: bool) {
    match data
    case None => ok && h' == h
    case Some(n) => After(p, bound, h, n, h', ok)
  }

  lemma PassedOverMeans(p: Pass, bound: nat, h: Heap, data: Option<Node>, h': Heap, ok: bool)
    requires PassedOver(p, bound, h, data, h', ok)
    ensures ok <==> AfterPass(p.r, InputsOf(h, data)).Some?
    ensures ok ==> AfterPass(p.r, InputsOf(h, data)) == Some(InputsOf(h', data))
    ensures LeftBy(p.r, InputsOf(h, data), InputsOf(h', data))
  {
  }

  /** What the inputs of a step become if they are given as one reference: the very object it stands for, or
      a new one. */
  ghost predicate Taken(found: Option<Node>, bound: nat, low: nat, h: Heap, data: Option<Node>, h': Heap) {
    && data.Some? && data.value in h' && data.value.level < bound
    && if found.Some? then data == found else OwnTree(h, low, h', data.value)
  }

  class FlowStepInput {
    const initKey: string
    var data: Option<Node>

    constructor (initKey: string, data: Option<Node>)
      ensures this.initKey == initKey && this.data == data
    {
      this.initKey, this.data := initKey, data;
    }

    /** The inputs of a decoded step: an object of its own, on one level of memory. */
    static method Decode(step: Declared, objects: set<Node>, ghost level: nat)
      returns (input: FlowStepInput, all: set<Node>)
      requires Wf(Snap(objects)) && (step.data.Some? ==> step.data.value.JObj?)
      ensures fresh(input) && objects <= all && fresh(all - objects)
      ensures Wf(Snap(all)) && Extended(old(Snap(objects)), Snap(all))
      ensures input.initKey == step.initKey && InputsOf(Snap(all), input.data) == step.data
      ensures input.data.Some? ==> OwnTree(old(Snap(objects)), level, Snap(all), input.data.value)
    {
      if step.data.None? {
        all := objects;
        input := new FlowStepInput(step.initKey, None);
      } else {
        var n;
        n, all := BuildInto(step.data.value, objects, level);
        input := new FlowStepInput(step.initKey, Some(n));
      }
    }

    /** The object itself. */
    function GetInputs(): Option<Node>
      reads this
    {
      data
    }

    /** Inputs given as one reference become the very object it stands for, and nothing is written; other
        inputs are passed over. */
    method FindReplaceDeferredInputsFrom(lib: Library, inputs: Json, locate: string -> Option<Node>,
                                         objects: set<Node>, ghost bound: nat, ghost low: nat, ghost e: set<Node>)
      returns (ok: bool, all: set<Node>)
      requires Wf(Snap(objects)) && low < bound && Finds(DeferredPass(lib, inputs, locate), bound, Snap(objects))
      requires !HasFlowInputsExpr(initKey) && data.Some? ==>
                 data.value in objects && Sound(HasFlowInputsExpr, bound, Snap(objects), data.value)
      modifies this`data, objects
      ensures objects <= all && fresh(all - objects) && Wf(Snap(all))
      ensures ok <==> AfterDeferred(lib, initKey, old(InputsOf(Snap(objects), data)), inputs).Some?
      ensures ok ==>
                Some(InputsOf(Snap(all), data)) ==
                  AfterDeferred(lib, initKey, old(InputsOf(Snap(objects), data)), inputs)
      ensures !ok ==> LeftBy(Deferred(lib, inputs), old(InputsOf(Snap(objects), data)), InputsOf(Snap(all), data))
      ensures !HasFlowInputsExpr(initKey) ==>
                && data == old(data)
                && PassedOver(DeferredPass(lib, inputs, locate), bound, old(Snap(objects)), data, Snap(all), ok)
      ensures HasFlowInputsExpr(initKey) ==>
                && Extended(old(Snap(objects)), Snap(all))
                && (!ok ==> data == old(data))
                && (ok ==> Taken(locate(initKey[|INPUTS|..]), bound, low, old(Snap(objects)), data, Snap(all)))
      ensures !HasFlowInputsExpr(initKey) && ok && data.Some?
                && FindsIn(DeferredPass(lib, inputs, locate), e, old(Snap(objects))) ==>
                Spread(e, old(Snap(objects)), data.value, Snap(all))
      ensures forall x :: x in all - objects ==> x.level == low
    {
      if HasFlowInputsExpr(initKey) {
        NothingIsLeft(Deferred(lib, inputs), InputsOf(Snap(objects), data));
        ok, all := Take(lib, inputs, locate, objects, bound, low);
      } else {
        ok, all := PassOver(data, DeferredPass(lib, inputs, locate), objects, bound, low, e);
      }
    }

    /** The inputs become the object that one reference stands for. */
    method Take(lib: Library, inputs: Json, locate: string -> Option<Node>, objects: set<Node>,
                ghost bound: nat, ghost low: nat)
      returns (ok: bool, all: set<Node>)
      requires HasFlowInputsExpr(initKey)
      requires Wf(Snap(objects)) && low < bound && Finds(DeferredPass(lib, inputs, locate), bound, Snap(objects))
      modifies this`data
      ensures objects <= all && fresh(all - objects) && Wf(Snap(all)) && Extended(old(Snap(objects)), Snap(all))
      ensures ok <==> AfterDeferred(lib, initKey, None, inputs).Some?
      ensures ok ==> AfterDeferred(lib, initKey, None, inputs) == Some(InputsOf(Snap(all), data))
      ensures ok ==> Taken(locate(initKey[|INPUTS|..]), bound, low, old(Snap(objects)), data, Snap(all))
      ensures !ok ==> data == old(data) && Snap(all) == old(Snap(objects))
      ensures forall x :: x in all - objects ==> x.level == low
    {
      var path := initKey[|INPUTS|..];
      var found := Query(lib, path, inputs);
      all := objects;
      if !(found.Some? && found.value.JObj?) {
        return false, all;
      }
      ghost var h := Snap(objects);
      if locate(path).Some? {
        data := locate(path);
        assert FoundOk(DeferredPass(lib, inputs, locate), bound, h, initKey, data.value);
      } else {
        var n;
        n, all := BuildInto(found.value, objects, low);
        data := Some(n);
      }
      ok := true;
    }

    /** The inputs are passed over in place; a failed pass leaves some references replaced and nothing else
        touched. */
    method FindReplacePassedInputsFrom(p: Pass, objects: set<Node>, ghost bound: nat, ghost low: nat)
      returns (ok: bool, all: set<Node>)
      requires Wf(Snap(objects)) && low < bound && Finds(p, bound, Snap(objects))
      requires data.Some? ==> data.value in objects && Sound(p.r.isRef, bound, Snap(objects), data.value)
      modifies objects
      ensures objects <= all && fresh(all - objects) && Wf(Snap(all))
      ensures PassedOver(p, bound, old(Snap(objects)), data, Snap(all), ok)
      ensures ok <==> AfterPass(p.r, old(InputsOf(Snap(objects), data))).Some?
      ensures ok ==> AfterPass(p.r, old(InputsOf(Snap(objects), data))) == Some(InputsOf(Snap(all), data))
      ensures LeftBy(p.r, old(InputsOf(Snap(objects), data)), InputsOf(Snap(all), data))
    {
      ok, all := PassOver(data, p, objects, bound, low, {});
    }
  }

  /** The recursion of either pass. */
  method PassOver(data: Option<Node>, p: Pass, objects: set<Node>, ghost bound: nat, ghost low: nat,
                  ghost e: set<Node>)
    returns (ok: bool, all: set<Node>)
    requires Wf(Snap(objects)) && low < bound && Finds(p, bound, Snap(objects))
    requires data.Some? ==> data.value in objects && Sound(p.r.isRef, bound, Snap(objects), data.value)
    modifies objects
    ensures objects <= all && fresh(all - objects) && Wf(Snap(all))
    ensures PassedOver(p, bound, old(Snap(objects)), data, Snap(all), ok)
    ensures ok <==> AfterPass(p.r, old(InputsOf(Snap(objects), data))).Some?
    ensures ok ==> AfterPass(p.r, old(InputsOf(Snap(objects), data))) == Some(InputsOf(Snap(all), data))
    ensures LeftBy(p.r, old(InputsOf(Snap(objects), data)), InputsOf(Snap(all), data))
    ensures ok && data.Some? && FindsIn(p, e, old(Snap(objects))) ==>
              Spread(e, old(Snap(objects)), data.value, Snap(all))
    ensures forall x :: x in all - objects ==> x.level == low
  {
    ghost var h := Snap(objects);
    if data.None? {
      ok, all := true, objects;
    } else {
      ok, all := Rewrite(data.value, p, objects, bound, low, e);
    }
    PassedOverMeans(p, bound, h, data, Snap(all), ok);
  }
}
