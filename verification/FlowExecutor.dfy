/** pkg/agent/executor/executor_v2.go: running a V2 service, whose steps read what earlier steps
    left in a store. */
module FlowExecutor {
  import opened Wrappers
  import opened ServiceModel
  import opened Executors
  import opened FlowJson
  import opened FlowRefs
  import opened FlowHeap
  import opened FlowRewrite
  import opened FlowSteps

  /** A step whose references to the service's inputs are filled in already. */
  datatype Step = Step(id: string, inputs: Option<Json>)

  /** What a run is given: the steps, the libraries, and how the command of a step goes on the
      arguments it is given. */
  datatype Program = Program(steps: seq<Step>, lib: Library, command: (nat, Option<Json>) -> Outcome)

  // ---------------------------------------------------------------- meaning of a run

  /** The arguments of a step, given the store it finds; nothing if a reference fails. */
  function Given(p: Program, i: nat, store: map<string, Json>): Option<Option<Json>>
    requires i < |p.steps|
  {
    AfterPass(Passed(p.lib, store), p.steps[i].inputs)
  }

  function WithInputs(id: string, given: Option<Json>, store: map<string, Json>): map<string, Json> {
    if given.Some? then store[StoreKey(id, Inputs) := given.value] else store
  }

  /** The store a step leaves, given the store it finds; nothing if the step fails. */
  function StepStore(p: Program, i: nat, store: map<string, Json>): Option<map<string, Json>>
    requires i < |p.steps|
  {
    var given := Given(p, i, store);
    if given.None? then None
    else
      var out := p.command(i, given.value);
      if !out.Body? then None
      else
        Some(WithInputs(p.steps[i].id, given.value, store)[StoreKey(p.steps[i].id, Outputs) := JStr(out.text)])
  }

  /** The store step `i` finds; nothing if an earlier step fails. */
  function StoreBefore(p: Program, i: nat): Option<map<string, Json>>
    requires i <= |p.steps|
  {
    if i == 0 then Some(map[])
    else
      var store := StoreBefore(p, i - 1);
      if store.None? then None else StepStore(p, i - 1, store.value)
  }

  /** The step at which the run ends, if it does not reach the end. */
  predicate FailsAt(p: Program, i: nat) {
    i < |p.steps| && StoreBefore(p, i).Some? && StoreBefore(p, i + 1).None?
  }

  lemma {:induction false} EarlierStores(p: Program, i: nat, k: nat)
    requires i <= k <= |p.steps|
    requires StoreBefore(p, k).Some?
    ensures StoreBefore(p, i).Some?
    decreases k - i
  {
    if i < k {
      EarlierStores(p, i, k - 1);
    }
  }

  /** A run gets to its end, or ends at one step and no other. */
  lemma {:induction false} FailsAtOneStep(p: Program, k: nat)
    requires k <= |p.steps|
    ensures StoreBefore(p, k).None? <==> exists i :: 0 <= i < k && FailsAt(p, i)
    ensures forall i: nat, j: nat :: FailsAt(p, i) && FailsAt(p, j) ==> i == j
  {
    forall i: nat, j: nat | FailsAt(p, i) && FailsAt(p, j) ensures i == j {
      if i < j {
        EarlierStores(p, i + 1, j);
      } else if j < i {
        EarlierStores(p, j + 1, i);
      }
    }
    if k > 0 {
      FailsAtOneStep(p, k - 1);
      if StoreBefore(p, k).None? && StoreBefore(p, k - 1).Some? {
        assert FailsAt(p, k - 1);
      }
      if exists i :: 0 <= i < k && FailsAt(p, i) {
        var i :| 0 <= i < k && FailsAt(p, i);
        if StoreBefore(p, k).Some? {
          EarlierStores(p, i + 1, k);
        }
      }
    }
  }

  ghost predicate DistinctIds(p: Program) {
    forall i, j :: 0 <= i < j < |p.steps| ==> p.steps[i].id != p.steps[j].id
  }

  /** What step `j` leaves under one of its two keys. */
  function Left(p: Program, j: nat, side: Side): Option<Json>
    requires j < |p.steps| && StoreBefore(p, j).Some?
  {
    var given := Given(p, j, StoreBefore(p, j).value);
    if given.None? then None
    else if side == Inputs then given.value
    else
      var out := p.command(j, given.value);
      if out.Body? then Some(JStr(out.text)) else None
  }

  /** Step `j` leaves something under this key. */
  predicate Writes(p: Program, j: nat, key: string, side: Side) {
    && j < |p.steps|
    && key == StoreKey(p.steps[j].id, side)
    && StoreBefore(p, j).Some?
    && Left(p, j, side).Some?
  }

  predicate Wrote(p: Program, i: nat, key: string, j: nat, side: Side) {
    j < i && Writes(p, j, key, side)
  }

  /** What one step adds to the store: what it left under its two keys. */
  lemma StepAdds(p: Program, i: nat, key: string)
    requires i < |p.steps| && StoreBefore(p, i + 1).Some?
    ensures StoreBefore(p, i).Some?
    ensures var was, now := StoreBefore(p, i).value, StoreBefore(p, i + 1).value;
      && (forall side :: Writes(p, i, key, side) ==> key in now && Left(p, i, side) == Some(now[key]))
      && (!(exists side :: Writes(p, i, key, side)) ==>
            (key in now <==> key in was) && (key in now ==> now[key] == was[key]))
  {
    var id := p.steps[i].id;
    StoreKeysDistinct(id, Inputs, id, Outputs);
    assert key == StoreKey(id, Outputs) ==> Writes(p, i, key, Outputs);
    assert key == StoreKey(id, Inputs) && Left(p, i, Inputs).Some? ==> Writes(p, i, key, Inputs);
  }

  /** Keys of different steps differ. */
  lemma OneWriter(p: Program, i: nat, key: string, j: nat, side: Side, k: nat, other: Side)
    requires DistinctIds(p) && i <= |p.steps| && Wrote(p, i, key, j, side) && Wrote(p, i, key, k, other)
    ensures j == k && side == other
  {
    StoreKeysDistinct(p.steps[j].id, side, p.steps[k].id, other);
  }

  /** The store is single-assignment: step `i` finds under a key exactly what the one earlier step
      with that key left there. */
  lemma {:induction false} StoreHoldsWhatStepsLeft(p: Program, i: nat, key: string)
    requires DistinctIds(p) && i <= |p.steps| && StoreBefore(p, i).Some?
    ensures key in StoreBefore(p, i).value <==> exists j: nat, side :: Wrote(p, i, key, j, side)
    ensures forall j: nat, side :: Wrote(p, i, key, j, side) ==>
              key in StoreBefore(p, i).value && Left(p, j, side) == Some(StoreBefore(p, i).value[key])
  {
    if i > 0 {
      var k := i - 1;
      StepAdds(p, k, key);
      StoreHoldsWhatStepsLeft(p, k, key);
      forall j: nat, side | Wrote(p, i, key, j, side)
        ensures key in StoreBefore(p, i).value && Left(p, j, side) == Some(StoreBefore(p, i).value[key])
      {
        if j < k && exists other :: Writes(p, k, key, other) {
          var other :| Writes(p, k, key, other);
          OneWriter(p, i, key, j, side, k, other);
        } else if j < k {
          assert Wrote(p, k, key, j, side);
        }
      }
      if exists side :: Writes(p, k, key, side) {
        var side :| Writes(p, k, key, side);
        assert Wrote(p, i, key, k, side);
      } else if key in StoreBefore(p, k).value {
        var j: nat, side :| Wrote(p, k, key, j, side);
        assert Wrote(p, i, key, j, side);
      }
    }
  }

  /** Reading a path in what step `j` left. */
  function ReadingLeft(p: Program, j: nat, side: Side, path: string): Option<Json>
    requires j < |p.steps| && StoreBefore(p, j).Some?
  {
    if Left(p, j, side).None? then None else Reading(p.lib, Left(p, j, side).value, path)
  }

  lemma WriterIs(p: Program, j: nat, side: Side, k: nat, other: Side, key: string)
    requires DistinctIds(p) && j < |p.steps| && key == StoreKey(p.steps[j].id, side) && Writes(p, k, key, other)
    ensures k == j && other == side
  {
    StoreKeysDistinct(p.steps[j].id, side, p.steps[k].id, other);
  }

  lemma HeldIsLeft(p: Program, i: nat, j: nat, side: Side, key: string, store: map<string, Json>)
    requires DistinctIds(p) && i <= |p.steps| && StoreBefore(p, i) == Some(store)
    requires j < |p.steps| && key == StoreKey(p.steps[j].id, side) && key in store
    ensures j < i && StoreBefore(p, j).Some? && Left(p, j, side) == Some(store[key])
  {
    StoreHoldsWhatStepsLeft(p, i, key);
    var k: nat, other :| Wrote(p, i, key, k, other);
    WriterIs(p, j, side, k, other, key);
  }

  lemma LeftIsHeld(p: Program, i: nat, j: nat, side: Side, key: string, store: map<string, Json>)
    requires DistinctIds(p) && j < i <= |p.steps| && StoreBefore(p, i) == Some(store)
    requires key == StoreKey(p.steps[j].id, side)
    ensures StoreBefore(p, j).Some? && (Left(p, j, side).Some? ==> key in store)
  {
    EarlierStores(p, j, i);
    StoreHoldsWhatStepsLeft(p, i, key);
    if Left(p, j, side).Some? {
      assert Wrote(p, i, key, j, side);
    }
  }

  lemma ReferenceSplits(lib: Library, store: map<string, Json>, id: string, side: Side, path: string)
    requires '.' !in id && (path == "" || path[0] == '.')
    ensures var key := StoreKey(id, side);
      PassedValue(lib, store, "$" + key + path) == if key in store then Reading(lib, store[key], path) else None
  {
    var key := StoreKey(id, side);
    var ref := "$" + key + path;
    assert ref[1..] == key + path;
    SplitUndoesStoreKey(id, side, path);
  }

  /** A reference in step `i` to a step with a dot-free id means what that step left, if it comes
      earlier; it fails for the step itself and for later ones. */
  lemma ReferenceMeansEarlierStep(p: Program, i: nat, j: nat, side: Side, path: string)
    requires DistinctIds(p) && i < |p.steps| && StoreBefore(p, i).Some?
    requires j < |p.steps| && '.' !in p.steps[j].id && (path == "" || path[0] == '.')
    ensures var ref := "$" + StoreKey(p.steps[j].id, side) + path;
      PassedValue(p.lib, StoreBefore(p, i).value, ref)
      == if j < i then (EarlierStores(p, j, i); ReadingLeft(p, j, side, path)) else None
  {
    var store, key := StoreBefore(p, i).value, StoreKey(p.steps[j].id, side);
    ReferenceSplits(p.lib, store, p.steps[j].id, side, path);
    if j < i {
      LeftIsHeld(p, i, j, side, key, store);
    }
    if key in store {
      HeldIsLeft(p, i, j, side, key, store);
    }
  }

  lemma ReferenceText(id: string, path: string)
    ensures "$" + StoreKey(id, Inputs) + path == "$" + id + ".inputs" + path
    ensures "$" + StoreKey(id, Outputs) + path == "$" + id + ".outputs" + path
  {
    assert "$" + (id + ".inputs") == "$" + id + ".inputs";
    assert "$" + (id + ".outputs") == "$" + id + ".outputs";
  }

  lemma ReadingText(lib: Library, t: string, n: nat, path: string)
    requires n <= |t| && (forall k :: 0 <= k < n ==> t[k] in " \t\r\n") && (n < |t| ==> t[n] !in " \t\r\n")
    ensures Reading(lib, JStr(t), path)
         == if n == |t| then None
            else if t[n] != '{' && t[n] != '[' then Some(JStr(t[n..]))
            else match lib.decode(t)
              case None => None
              case Some(v) => Query(lib, path, v)
  {
    TrimmedAt(t, n);
  }

  /** A reference to the output of an earlier step: blank text is nothing, plain text is itself without its
      leading blanks, whatever the path, and text that begins like an object or an array is decoded and the path
      is looked up in what that gives. */
  lemma OutputReference(p: Program, i: nat, j: nat, path: string, t: string, n: nat)
    requires DistinctIds(p) && j < i < |p.steps| && StoreBefore(p, i).Some? && StoreBefore(p, j).Some?
    requires Given(p, j, StoreBefore(p, j).value).Some?
    requires p.command(j, Given(p, j, StoreBefore(p, j).value).value) == Body(t)
    requires '.' !in p.steps[j].id && (path == "" || path[0] == '.')
    requires n <= |t| && (forall k :: 0 <= k < n ==> t[k] in " \t\r\n") && (n < |t| ==> t[n] !in " \t\r\n")
    ensures PassedValue(p.lib, StoreBefore(p, i).value, "$" + p.steps[j].id + ".outputs" + path)
         == if n == |t| then None
            else if t[n] != '{' && t[n] != '[' then Some(JStr(t[n..]))
            else match p.lib.decode(t)
              case None => None
              case Some(v) => Query(p.lib, path, v)
  {
    ReferenceText(p.steps[j].id, path);
    ReferenceMeansEarlierStep(p, i, j, Outputs, path);
    assert ReadingLeft(p, j, Outputs, path) == Reading(p.lib, JStr(t), path);
    ReadingText(p.lib, t, n, path);
  }

  /** A reference to the inputs of an earlier step: the path is looked up in the arguments it was given; a step
      without inputs has none. */
  lemma InputsOfEarlierStep(p: Program, i: nat, j: nat, path: string, given: Option<Json>)
    requires DistinctIds(p) && j < i < |p.steps| && StoreBefore(p, i).Some? && StoreBefore(p, j).Some?
    requires Given(p, j, StoreBefore(p, j).value) == Some(given)
    requires '.' !in p.steps[j].id && (path == "" || path[0] == '.')
    requires p.steps[j].inputs.Some? ==> p.steps[j].inputs.value.JObj?
    ensures PassedValue(p.lib, StoreBefore(p, i).value, "$" + p.steps[j].id + ".inputs" + path)
         == if given.None? then None else Query(p.lib, path, given.value)
  {
    ReferenceText(p.steps[j].id, path);
    ReferenceMeansEarlierStep(p, i, j, Inputs, path);
    assert Left(p, j, Inputs) == given;
    assert given.Some? ==> given.value.JObj?;
  }

  /** Whatever a reference in step `i` resolves to, it was left by an earlier step. */
  lemma OnlyEarlierStepsResolve(p: Program, i: nat, ref: string)
    requires DistinctIds(p) && i < |p.steps| && StoreBefore(p, i).Some?
    requires PassedValue(p.lib, StoreBefore(p, i).value, ref).Some?
    ensures exists j: nat, side ::
              && Wrote(p, i, SplitRef(ref[1..]).0, j, side)
              && PassedValue(p.lib, StoreBefore(p, i).value, ref) == ReadingLeft(p, j, side, SplitRef(ref[1..]).1)
  {
    StoreHoldsWhatStepsLeft(p, i, SplitRef(ref[1..]).0);
  }

  // ---------------------------------------------------------------- the messages of a run

  /** A V2 run says that it began, and how it ended. */
  function V2Trace(id: Uuid, n: nat, failed: Option<nat>): seq<Update> {
    [Update(id, n, 0, StepProcessing), LastUpdate(id, n, failed)]
  }

  function LastUpdate(id: Uuid, n: nat, failed: Option<nat>): Update {
    if failed.Some? then Update(id, n, failed.value, StepFail) else Update(id, n, n - 1, StepSuccess)
  }

  lemma TwoMessages(before: seq<Update>, id: Uuid, n: nat, failed: Option<nat>)
    ensures before + [Update(id, n, 0, StepProcessing)] + [LastUpdate(id, n, failed)] == before + V2Trace(id, n, failed)
  {
  }

  /** Its two messages are in the grammar both sides rely on, and both sides read them alike. */
  lemma V2TraceIsLegal(id: Uuid, n: nat, failed: Option<nat>)
    requires n > 0 && (failed.Some? ==> failed.value < n)
    ensures var t := V2Trace(id, n, failed);
      && LegalTrace(id, t)
      && Agreeing(t)
      && Verdict(t) == if failed.Some? then Failed else Success
  {
  }

  ghost predicate EndsAs(p: Program, failed: Option<nat>) {
    match failed
    case Some(i) => FailsAt(p, i)
    case None => StoreBefore(p, |p.steps|).Some?
  }

  /** The first `m` steps hold the arguments that the meaning of the run gives them. */
  ghost predicate Resolved(p: Program, flow: seq<Step>, m: nat) {
    && |flow| == |p.steps|
    && m <= |flow|
    && forall k :: 0 <= k < m ==>
         StoreBefore(p, k).Some? && Given(p, k, StoreBefore(p, k).value) == Some(flow[k].inputs)
  }

  /** A run that ended as `failed` says: the steps before hold the arguments they were given, and
      without a failure the last body is the result. */
  ghost predicate RanAs(p: Program, flow: seq<Step>, last: string, failed: Option<nat>) {
    && EndsAs(p, failed)
    && (failed.Some? ==> Resolved(p, flow, failed.value))
    && (failed.None? ==> Resolved(p, flow, |p.steps|))
    && (failed.None? && p.steps != [] ==> Left(p, |p.steps| - 1, Outputs) == Some(JStr(last)))
  }

  /** In full: either every step was given its arguments and went well, and the last body is the result, or step
      `i` is the first for which one of these fails; and the steps before hold what they were given. */
  lemma RanMeans(p: Program, flow: seq<Step>, last: string, failed: Option<nat>)
    requires RanAs(p, flow, last, failed)
    ensures failed.Some? ==> failed.value < |p.steps|
    ensures |flow| == |p.steps|
    ensures forall k :: 0 <= k < (if failed.Some? then failed.value else |p.steps|) ==>
              && StoreBefore(p, k).Some?
              && Given(p, k, StoreBefore(p, k).value) == Some(flow[k].inputs)
              && p.command(k, flow[k].inputs).Body?
    ensures failed.None? && p.steps != [] ==>
              p.command(|flow| - 1, flow[|flow| - 1].inputs) == Body(last)
    ensures failed.Some? ==>
              && StoreBefore(p, failed.value).Some?
              && var given := Given(p, failed.value, StoreBefore(p, failed.value).value);
                 given.None? || !p.command(failed.value, given.value).Body?
  {
    var n := if failed.Some? then failed.value else |p.steps|;
    forall k | 0 <= k < n
      ensures StoreBefore(p, k).Some? && Given(p, k, StoreBefore(p, k).value) == Some(flow[k].inputs)
      ensures p.command(k, flow[k].inputs).Body?
    {
      EarlierStores(p, k + 1, n);
    }
  }

  /** A run that has come to step `i`. */
  ghost predicate Reached(p: Program, i: nat, flow: seq<Step>, store: map<string, Json>, last: string) {
    && Resolved(p, flow, i)
    && StoreBefore(p, i) == Some(store)
    && (forall k :: i <= k < |flow| ==> flow[k] == p.steps[k])
    && (i > 0 ==> Left(p, i - 1, Outputs) == Some(JStr(last)))
  }

  /** What one turn of the loop does: to the steps, and to the store or not at all. */
  ghost predicate Stepped(lib: Library, command: (nat, Option<Json>) -> Outcome, i: nat, before: seq<Step>,
                          now: seq<Step>, store: map<string, Json>, r: Result<(map<string, Json>, string), string>)
    requires i < |before|
  {
    var given := AfterPass(Passed(lib, store), before[i].inputs);
    && |now| == |before|
    && (forall k :: 0 <= k < |now| && k != i ==> now[k] == before[k])
    && (given.Some? ==> now[i] == before[i].(inputs := given.value))
    && match r
       case Ok((store', text)) =>
         && given.Some? && command(i, given.value) == Body(text)
         && store' == WithInputs(before[i].id, given.value, store)[StoreKey(before[i].id, Outputs) := JStr(text)]
       case Err(_) => given.None? || !command(i, given.value).Body?
  }

  lemma StepTaken(p: Program, i: nat, before: seq<Step>, now: seq<Step>, store: map<string, Json>, last: string,
                  r: Result<(map<string, Json>, string), string>)
    requires Reached(p, i, before, store, last) && i < |before|
    requires Stepped(p.lib, p.command, i, before, now, store, r)
    ensures match r
      case Ok((store', text)) => Reached(p, i + 1, now, store', text)
      case Err(e) => RanAs(p, now, e, Some(i))
  {
    assert before[i] == p.steps[i];
    if r.Ok? {
      assert now == before[i := now[i]];
    }
  }

  lemma RunBegins(p: Program)
    ensures Reached(p, 0, p.steps, StoreValues(map[]), "")
  {
    assert StoreValues(map[]) == map[];
  }

  lemma RunEnds(p: Program, flow: seq<Step>, store: map<string, Json>, last: string)
    requires Reached(p, |p.steps|, flow, store, last)
    ensures RanAs(p, flow, last, None)
  {
  }

  // ---------------------------------------------------------------- steps in memory

  /** jq: what a query yields, and if that is a part of the input, where it is. */
  datatype Jq = Jq(lib: Library, place: (string, Json) -> Option<seq<Key>>)

  ghost predicate LawfulJq(q: Jq) {
    forall path, j :: q.place(path, j).Some? ==>
      Query(q.lib, path, j).Some? && At(j, q.place(path, j).value) == Query(q.lib, path, j)
  }

  /** What the pass puts in place of a reference that leads into `n`: the very object, if there is one. */
  function Locate(q: Jq, path: string, h: Heap, n: Node, json: Json): Option<Node> {
    var keys := q.place(path, json);
    if keys.Some? then Walk(h, n, keys.value) else None
  }

  /** What the store holds: the text of an output, or the very object of a step's inputs, with its value. */
  datatype Stored = Text(text: string) | Held(node: Node, json: Json)

  type Store = map<string, Stored>

  function StoredValue(v: Stored): Json {
    match v
    case Text(text) => JStr(text)
    case Held(_, json) => json
  }

  function StoreValues(store: Store): map<string, Json> {
    map k | k in store :: StoredValue(store[k])
  }

  /** The pass over the inputs of a step, over what earlier steps left. */
  function PassedPass(q: Jq, h: Heap, store: Store): Pass {
    Pass(Passed(q.lib, StoreValues(store)),
         (s: string) =>
           if !IsPassedRef(s) then None
           else
             var (key, path) := SplitRef(s[1..]);
             if key in store && store[key].Held? then Locate(q, path, h, store[key].node, store[key].json) else None)
  }

  /** The objects of the store are there, below a level, and stand for their values. */
  ghost predicate StoreOk(h: Heap, level: nat, store: Store) {
    forall k :: k in store && store[k].Held? ==> HeldOk(h, level, store[k].node, store[k].json)
  }

  ghost predicate HeldOk(h: Heap, level: nat, n: Node, json: Json) {
    n in h && n.level < level && TreeOf(h, n) == json && !json.JStr?
  }

  lemma StoreFinds(q: Jq, h: Heap, level: nat, store: Store)
    requires LawfulJq(q) && Wf(h) && StoreOk(h, level, store)
    ensures Finds(PassedPass(q, h, store), level, h)
  {
    var p := PassedPass(q, h, store);
    forall s | p.r.isRef(s) && p.find(s).Some? ensures FoundOk(p, level, h, s, p.find(s).value) {
      var (key, path) := SplitRef(s[1..]);
      var n, m := store[key].node, p.find(s).value;
      assert HeldOk(h, level, n, store[key].json);
      WalkFinds(h, n, q.place(path, store[key].json).value);
      ReachStays(h, n);
      if m != n {
        ReachIsBelow(h, n, m);
      }
    }
  }

  /** The level from which the pass over step `i` writes: above all that earlier steps have left. */
  function WriteLevel(i: nat): nat {
    2 * i + 1
  }

  ghost predicate Rooted(h: Heap, i: nat, data: Option<Node>) {
    data.Some? ==> data.value in h && data.value.level <= WriteLevel(i) + 1
  }

  /** The objects with references below a step are its own and are not shared by two slots of one object;
      all others may be shared, within the step and by any number of steps. */
  ghost predicate Ready(h: Heap, i: nat, data: Option<Node>) {
    Rooted(h, i, data) && (data.Some? ==> Sound(IsPassedRef, WriteLevel(i), h, data.value))
  }

  /** In the middle of a run: the steps from `i` on are still to do. */
  ghost predicate StepsOk(h: Heap, roots: seq<Option<Node>>, i: nat) {
    && Wf(h)
    && (forall k {:trigger Rooted(h, k, roots[k])} :: 0 <= k < |roots| ==> Rooted(h, k, roots[k]))
    && (forall k {:trigger Ready(h, k, roots[k])} :: i <= k < |roots| ==> Ready(h, k, roots[k]))
  }

  lemma OtherStepStays(p: Pass, h: Heap, roots: seq<Option<Node>>, i: nat, h': Heap, ok: bool, k: nat)
    requires StepsOk(h, roots, i) && i < |roots| && k < |roots| && k != i && p.r.isRef == IsPassedRef
    requires PassedOver(p, WriteLevel(i), h, roots[i], h', ok)
    ensures InputsOf(h', roots[k]) == InputsOf(h, roots[k]) && Rooted(h', k, roots[k])
    ensures k > i ==> Ready(h', k, roots[k])
  {
    assert Rooted(h, k, roots[k]) && Ready(h, i, roots[i]);
    if k > i {
      assert Ready(h, k, roots[k]);
    }
    if roots[k].Some? && roots[i].Some? {
      var n, m := roots[i].value, roots[k].value;
      ReachStays(h, m);
      forall x | x in Reach(h, m) ensures x in h && x in h' && h'[x] == h[x] {
        if x in Reach(h, n) && OwnRef(IsPassedRef, h[x]) {
          WrittenIsHigh(IsPassedRef, WriteLevel(i), h, n, x);
          if x != n {
            ReachIsBelow(h, n, x);
          }
          if x != m {
            ReachIsBelow(h, m, x);
          }
          if k > i {
            WrittenIsHigh(IsPassedRef, WriteLevel(k), h, m, x);
          }
        }
      }
      Frame(h, h', m);
      if k > i {
        SoundFrame(IsPassedRef, WriteLevel(k), h, h', m);
      }
    }
  }

  lemma StoreStays(p: Pass, h: Heap, roots: seq<Option<Node>>, i: nat, h': Heap, ok: bool, store: Store)
    requires StepsOk(h, roots, i) && i < |roots| && p.r.isRef == IsPassedRef
    requires PassedOver(p, WriteLevel(i), h, roots[i], h', ok) && StoreOk(h, WriteLevel(i), store)
    ensures StoreOk(h', WriteLevel(i), store)
  {
    assert Ready(h, i, roots[i]);
    if roots[i].Some? {
      forall k | k in store && store[k].Held? ensures HeldOk(h', WriteLevel(i), store[k].node, store[k].json) {
        assert HeldOk(h, WriteLevel(i), store[k].node, store[k].json);
        LowTreeStays(p, WriteLevel(i), h, roots[i].value, h', store[k].node);
      }
    }
  }

  /** An object of the service's inputs that holds no references may be the inputs of any step, and of any
      number of them. */
  lemma SharedInputsAreReady(lib: Library, store: map<string, Json>, h: Heap, i: nat, n: Node)
    requires Wf(h) && n in h && n.level == 0 && !HasRef(Passed(lib, store), TreeOf(h, n))
    ensures Ready(h, i, Some(n))
  {
    CleanIsSound(Passed(lib, store), WriteLevel(i), h, n);
  }

  // ---------------------------------------------------------------- the executor object

  /** The steps as values. */
  ghost function ValuesOf(ids: seq<string>, h: Heap, roots: seq<Option<Node>>): seq<Step>
    requires |ids| == |roots|
  {
    seq(|roots|, i requires 0 <= i < |roots| => Step(ids[i], InputsOf(h, roots[i])))
  }

  /** After the pass over one step: the values of all others are as they were, and the later ones may still
      be passed over. */
  lemma TurnDone(p: Pass, ids: seq<string>, h: Heap, roots: seq<Option<Node>>, i: nat, h': Heap, ok: bool)
    requires |ids| == |roots| && StepsOk(h, roots, i) && i < |roots| && p.r.isRef == IsPassedRef
    requires PassedOver(p, WriteLevel(i), h, roots[i], h', ok) && Wf(h')
    ensures forall k :: 0 <= k < |roots| && k != i ==> ValuesOf(ids, h', roots)[k] == ValuesOf(ids, h, roots)[k]
    ensures StepsOk(h', roots, i + 1)
  {
    forall k | 0 <= k < |roots| && k != i
      ensures InputsOf(h', roots[k]) == InputsOf(h, roots[k]) && Rooted(h', k, roots[k])
      ensures k > i ==> Ready(h', k, roots[k])
    {
      OtherStepStays(p, h, roots, i, h', ok, k);
    }
    assert Rooted(h, i, roots[i]);
    assert Rooted(h', i, roots[i]);
  }

  datatype FlowStep = FlowStep(id: string, input: FlowStepInput)

  function Ids(flow: seq<FlowStep>): seq<string> {
    seq(|flow|, i requires 0 <= i < |flow| => flow[i].id)
  }

  function AddInputs(store: Store, id: string, data: Option<(Node, Json)>): Store {
    if data.Some? then store[StoreKey(id, Inputs) := Held(data.value.0, data.value.1)] else store
  }

  function AddOutput(store: Store, id: string, text: string): Store {
    store[StoreKey(id, Outputs) := Text(text)]
  }

  function JsonOf(data: Option<(Node, Json)>): Option<Json> {
    if data.Some? then Some(data.value.1) else None
  }

  lemma StoreGrows(store: Store, id: string, data: Option<(Node, Json)>, text: string)
    ensures StoreValues(AddOutput(AddInputs(store, id, data), id, text))
         == WithInputs(id, JsonOf(data), StoreValues(store))[StoreKey(id, Outputs) := JStr(text)]
  {
  }

  ghost predicate DataOk(h: Heap, i: nat, root: Option<Node>, data: Option<(Node, Json)>) {
    && (data.Some? <==> root.Some?)
    && (data.Some? ==> data.value.0 == root.value && data.value.1 == TreeOf(h, root.value))
  }

  lemma StoreStaysOk(h: Heap, roots: seq<Option<Node>>, i: nat, store: Store, id: string, data: Option<(Node, Json)>,
                     text: string)
    requires Wf(h) && i < |roots| && Rooted(h, i, roots[i]) && StoreOk(h, WriteLevel(i), store)
    requires DataOk(h, i, roots[i], data)
    ensures StoreOk(h, WriteLevel(i + 1), AddOutput(AddInputs(store, id, data), id, text))
  {
    var now := AddOutput(AddInputs(store, id, data), id, text);
    forall k | k in now && now[k].Held? ensures HeldOk(h, WriteLevel(i + 1), now[k].node, now[k].json) {
      if data.Some? && now[k] == Held(data.value.0, data.value.1) {
        assert NodeOk(h, data.value.0);
      } else {
        assert HeldOk(h, WriteLevel(i), store[k].node, store[k].json);
      }
    }
  }

  function Plain(r: Result<(Store, string), string>): Result<(map<string, Json>, string), string> {
    match r
    case Ok((store, text)) => Ok((StoreValues(store), text))
    case Err(e) => Err(e)
  }

  class ServiceExecutorV2 {
    const id: Uuid
    const q: Jq
    const flow: seq<FlowStep>
    ghost const roots: seq<Option<Node>>
    var objects: set<Node>
    var status: ServiceStatus
    var result: Result<string, string>
    var channel: seq<Update>

    constructor (id: Uuid, q: Jq, flow: seq<FlowStep>, objects: set<Node>, ghost roots: seq<Option<Node>>)
      requires LawfulJq(q) && |flow| == |roots| && StepsOk(Snap(objects), roots, 0)
      requires forall k :: 0 <= k < |flow| ==> flow[k].input.data == roots[k]
      ensures this.id == id && this.q == q && this.flow == flow && this.objects == objects && this.roots == roots
      ensures Valid() && channel == []
    {
      this.id, this.q, this.flow, this.objects, this.roots := id, q, flow, objects, roots;
      status, result, channel := Preparing, Ok(""), [];
    }

    /** What the steps hold does not change in a run, only what is in it. */
    ghost predicate Holding()
      reads set k | 0 <= k < |flow| :: flow[k].input
    {
      |flow| == |roots| && forall k :: 0 <= k < |flow| ==> flow[k].input.data == roots[k]
    }

    ghost predicate Valid()
      reads this, objects, set k | 0 <= k < |flow| :: flow[k].input
    {
      Holding() && LawfulJq(q) && StepsOk(Snap(objects), roots, 0)
    }

    /** The steps as values. */
    ghost function Values(): seq<Step>
      requires |flow| == |roots|
      reads this, objects
    {
      ValuesOf(Ids(flow), Snap(objects), roots)
    }

    /** The pass over the inputs of one step, and what it leaves there. */
    method PassInputs(i: nat, store: Store) returns (given: Option<Option<(Node, Json)>>)
      requires Holding() && LawfulJq(q) && i < |flow|
      requires StepsOk(Snap(objects), roots, i) && StoreOk(Snap(objects), WriteLevel(i), store)
      modifies this`objects, objects
      ensures old(objects) <= objects && fresh(objects - old(objects)) && Holding()
      ensures StepsOk(Snap(objects), roots, i + 1) && StoreOk(Snap(objects), WriteLevel(i), store)
      ensures forall k :: 0 <= k < |flow| && k != i ==> Values()[k] == old(Values()[k])
      ensures AfterPass(Passed(q.lib, StoreValues(store)), old(Values())[i].inputs)
           == if given.Some? then Some(JsonOf(given.value)) else None
      ensures given.Some? ==>
                && DataOk(Snap(objects), i, roots[i], given.value)
                && Values()[i] == old(Values()[i]).(inputs := JsonOf(given.value))
    {
      ghost var h, ids := Snap(objects), Ids(flow);
      var p := PassedPass(q, Snap(objects), store);
      StoreFinds(q, h, WriteLevel(i), store);
      assert Ready(h, i, roots[i]);
      var input := flow[i].input;
      var ok, all := input.FindReplacePassedInputsFrom(p, objects, WriteLevel(i), 0);
      ghost var now := Snap(all);
      TurnDone(p, ids, h, roots, i, now, ok);
      StoreStays(p, h, roots, i, now, ok, store);
      objects := all;
      if !ok {
        return None;
      }
      var data := input.GetInputs();
      if data.None? {
        return Some(None);
      }
      var json := ToJson(data.value, objects);
      return Some(Some((data.value, json)));
    }

    /** One turn of the loop. */
    method RunStep(i: nat, store: Store, command: (nat, Option<Json>) -> Outcome)
      returns (r: Result<(Store, string), string>)
      requires Holding() && LawfulJq(q) && i < |flow|
      requires StepsOk(Snap(objects), roots, i) && StoreOk(Snap(objects), WriteLevel(i), store)
      modifies this`objects, objects
      ensures old(objects) <= objects && fresh(objects - old(objects)) && Holding()
      ensures StepsOk(Snap(objects), roots, i + 1)
      ensures r.Ok? ==> StoreOk(Snap(objects), WriteLevel(i + 1), r.value.0)
      ensures Stepped(q.lib, command, i, old(Values()), Values(), StoreValues(store), Plain(r))
    {
      var given := PassInputs(i, store);
      if given.None? {
        return Err("unresolved input");
      }
      var outcome := command(i, JsonOf(given.value));
      if !outcome.Body? {
        return Err(outcome.error);
      }
      var flowStore := AddOutput(AddInputs(store, flow[i].id, given.value), flow[i].id, outcome.text);
      StoreGrows(store, flow[i].id, given.value, outcome.text);
      assert Rooted(Snap(objects), i, roots[i]);
      StoreStaysOk(Snap(objects), roots, i, store, flow[i].id, given.value, outcome.text);
      return Ok((flowStore, outcome.text));
    }

    /** The loop over the steps: it ends with the last body, or with the step that failed. */
    method RunSteps(command: (nat, Option<Json>) -> Outcome) returns (last: string, failed: Option<nat>)
      requires Valid()
      modifies this`objects, objects
      ensures old(objects) <= objects && fresh(objects - old(objects)) && Holding()
      ensures RanAs(Program(old(Values()), q.lib, command), Values(), last, failed)
    {
      ghost var p := Program(Values(), q.lib, command);
      var flowStore: Store := map[];
      last := "";
      var i := 0;
      RunBegins(p);
      while i < |flow|
        invariant 0 <= i <= |flow| == |p.steps|
        invariant old(objects) <= objects && fresh(objects - old(objects)) && Holding()
        invariant StepsOk(Snap(objects), roots, i) && StoreOk(Snap(objects), WriteLevel(i), flowStore)
        invariant Reached(p, i, Values(), StoreValues(flowStore), last)
      {
        ghost var before, reach := Values(), objects;
        var r := RunStep(i, flowStore, command);
        assert objects - old(objects) <= (objects - reach) + (reach - old(objects));
        StepTaken(p, i, before, Values(), StoreValues(flowStore), last, Plain(r));
        if r.Err? {
          return r.error, Some(i);
        }
        flowStore, last := r.value.0, r.value.1;
        i := i + 1;
      }
      RunEnds(p, Values(), StoreValues(flowStore), last);
      return last, None;
    }

    method SendServiceStatusUpdate(sequence: int, status: StepStatus)
      modifies this`channel
      ensures channel == old(channel) + [Update(id, |flow|, sequence, status)]
    {
      channel := channel + [Update(id, |flow|, sequence, status)];
    }

    /** The last message, and the deferred bookkeeping. */
    method Finish(last: string, failed: Option<nat>)
      modifies this`channel, this`status, this`result
      ensures channel == old(channel) + [LastUpdate(id, |flow|, failed)]
      ensures result == if failed.Some? then Err(last) else Ok(last)
      ensures status == if failed.Some? then Failed else Success
    {
      if failed.Some? {
        SendServiceStatusUpdate(failed.value, StepFail);
        status, result := Failed, Err(last);
      } else {
        SendServiceStatusUpdate(|flow| - 1, StepSuccess);
        status, result := Success, Ok(last);
      }
    }

    method Execute(command: (nat, Option<Json>) -> Outcome)
      returns (r: Result<string, string>, ghost failed: Option<nat>)
      requires Valid()
      modifies this, objects
      ensures RanAs(Program(old(Values()), q.lib, command), Values(), if r.Ok? then r.value else r.error, failed)
      ensures channel == old(channel) + V2Trace(id, |flow|, failed)
      ensures (r.Ok? <==> failed.None?) && r == result && status == if r.Ok? then Success else Failed
    {
      ghost var p := Program(Values(), q.lib, command);
      status := Processing;
      SendServiceStatusUpdate(0, StepProcessing);
      assert Values() == p.steps;
      var last, failedAt := RunSteps(command);
      ghost var now := Values();
      TwoMessages(old(channel), id, |flow|, failedAt);
      Finish(last, failedAt);
      assert Values() == now;
      return result, failedAt;
    }
  }
}
