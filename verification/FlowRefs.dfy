/** pkg/agent/service/flow.go: what the references in a flow stand for. The JSON decoder and the
    jq library are parameters. */
module FlowRefs {
  import opened Wrappers
  import opened FlowJson

  /** `run(path, input)`: nothing if the path does not parse, else what the query yields, in order.
      `decode`: the text of an object or an array as JSON. */
  datatype Library = Library(
    run: (string, Json) -> Option<seq<Result<Json, string>>>,
    decode: string -> Option<Json>)

  /** Scan a query's results for the first one that is not null; an error ends the scan. */
  method FirstHit(results: seq<Result<Json, string>>) returns (hit: Option<Json>)
    ensures hit == Hit(results)
  {
    var i := 0;
    while i < |results|
      invariant 0 <= i <= |results|
      invariant Hit(results) == Hit(results[i..])
    {
      match results[i] {
        case Err(_) => return None;
        case Ok(v) =>
          if v != JNull {
            return Some(v);
          }
      }
      i := i + 1;
    }
    return None;
  }

  function Hit(results: seq<Result<Json, string>>): Option<Json> {
    if results == [] then None
    else match results[0]
      case Err(_) => None
      case Ok(v) => if v != JNull then Some(v) else Hit(results[1..])
  }

  predicate HitAt(results: seq<Result<Json, string>>, i: nat, v: Json) {
    && i < |results|
    && results[i] == Ok(v)
    && v != JNull
    && forall k :: 0 <= k < i ==> results[k] == Ok(JNull)
  }

  /** A hit is the result that only nulls precede. */
  lemma {:induction false} HitIsFirstNonNull(results: seq<Result<Json, string>>, v: Json)
    ensures Hit(results) == Some(v) <==> exists i: nat :: HitAt(results, i, v)
  {
    if results != [] {
      HitIsFirstNonNull(results[1..], v);
      if results[0] == Ok(JNull) {
        if exists i: nat :: HitAt(results[1..], i, v) {
          var i: nat :| HitAt(results[1..], i, v);
          assert HitAt(results, i + 1, v);
        }
        if exists i: nat :: HitAt(results, i, v) {
          var i: nat :| HitAt(results, i, v);
          assert HitAt(results[1..], i - 1, v);
        }
      } else if Hit(results) == Some(v) {
        assert HitAt(results, 0, v);
      }
    }
  }

  function Query(lib: Library, path: string, input: Json): Option<Json> {
    match lib.run(path, input)
    case None => None
    case Some(results) => Hit(results)
  }

  /** A query stands for the first result of the library that is not null, with nothing but nulls before it. */
  lemma QueryIs(lib: Library, path: string, input: Json, v: Json)
    ensures Query(lib, path, input) == Some(v) <==>
              && v != JNull && lib.run(path, input).Some?
              && var results := lib.run(path, input).value;
                 exists i :: 0 <= i < |results| && results[i] == Ok(v)
                             && forall k :: 0 <= k < i ==> results[k] == Ok(JNull)
  {
    if lib.run(path, input).Some? {
      var results := lib.run(path, input).value;
      HitIsFirstNonNull(results, v);
      if exists i :: 0 <= i < |results| && results[i] == Ok(v) && forall k :: 0 <= k < i ==> results[k] == Ok(JNull) {
        var i :| 0 <= i < |results| && results[i] == Ok(v) && forall k :: 0 <= k < i ==> results[k] == Ok(JNull);
        assert v != JNull ==> HitAt(results, i, v);
      }
    }
  }

  // ---------------------------------------------------------------- the two kinds of reference

  const INPUTS := "$inputs"

  predicate StartsWith(s: string, p: string) {
    |p| <= |s| && s[..|p|] == p
  }

  /** `$inputs`, alone or with a path behind a dot. */
  predicate HasFlowInputsExpr(s: string) {
    StartsWith(s, INPUTS) && (|s| > |INPUTS| ==> s[|INPUTS|] == '.')
  }

  /** The pass that fills in the service's own inputs. */
  function Deferred(lib: Library, inputs: Json): Resolver {
    Resolver(HasFlowInputsExpr,
             (s: string) => if HasFlowInputsExpr(s) then Query(lib, s[|INPUTS|..], inputs) else None)
  }

  /** These are all of them, and they stand for what the path behind leads to in the service's inputs. */
  lemma InputsReference(lib: Library, inputs: Json, s: string)
    ensures HasFlowInputsExpr(s) <==> s == "$inputs" || (|s| > 7 && s[..8] == "$inputs.")
    ensures HasFlowInputsExpr(s) ==> Deferred(lib, inputs).value(s) == Query(lib, s[7..], inputs)
  {
    if |s| > 7 {
      assert s[..8] == s[..7] + [s[7]];
    } else if HasFlowInputsExpr(s) {
      assert s == s[..7];
    }
  }

  predicate IsPassedRef(s: string) {
    s != "" && s[0] == '$'
  }

  /** Index of the second dot at or after `from`, having seen `seen` already; -1 if there is none. */
  function SecondDot(s: string, from: nat, seen: nat): (r: int)
    requires from <= |s| && seen < 2
    ensures r == -1 || (from <= r < |s| && s[r] == '.')
    decreases |s| - from
  {
    if from == |s| then -1
    else if s[from] == '.' then
      if seen == 1 then from else SecondDot(s, from + 1, 1)
    else SecondDot(s, from + 1, seen)
  }

  /** The store key and the path of a reference without its dollar. */
  function SplitRef(s: string): (string, string) {
    var i := SecondDot(s, 0, 0);
    if i < 0 then (s, "") else (s[..i], s[i..])
  }

  function Dots(s: string): nat {
    if s == "" then 0 else (if s[0] == '.' then 1 else 0) + Dots(s[1..])
  }

  lemma {:induction false} DotsOfConcat(s: string, t: string)
    ensures Dots(s + t) == Dots(s) + Dots(t)
  {
    if s == "" {
      assert s + t == t;
    } else {
      assert (s + t)[1..] == s[1..] + t;
      DotsOfConcat(s[1..], t);
    }
  }

  lemma {:induction false} NoDots(s: string)
    ensures Dots(s) == 0 <==> '.' !in s
  {
    if s != "" {
      NoDots(s[1..]);
      assert s == [s[0]] + s[1..];
    }
  }

  /** The scan stops at the dot that brings the count to two. */
  lemma {:induction false} SecondDotIs(s: string, from: nat, seen: nat)
    requires from <= |s| && seen < 2
    ensures var i := SecondDot(s, from, seen);
      if i < 0 then seen + Dots(s[from..]) < 2 else seen + Dots(s[from..i]) == 1
    decreases |s| - from
  {
    var i := SecondDot(s, from, seen);
    if from < |s| {
      assert s[from..][1..] == s[from + 1..];
      if i >= 0 && i > from {
        assert s[from..i][1..] == s[from + 1..i];
      }
      if s[from] == '.' {
        if seen == 0 {
          SecondDotIs(s, from + 1, 1);
        }
      } else {
        SecondDotIs(s, from + 1, seen);
      }
    }
  }

  /** Splitting loses nothing, and the path is empty or begins at the second dot. */
  lemma SplitRefParts(s: string)
    ensures var (key, path) := SplitRef(s);
      && s == key + path
      && (if path == "" then Dots(key) < 2 else Dots(key) == 1 && path[0] == '.')
  {
    SecondDotIs(s, 0, 0);
    assert s[0..] == s;
    var i := SecondDot(s, 0, 0);
    if i >= 0 {
      assert s[0..i] == s[..i];
    }
  }

  /** Those are the only parts a string has. */
  lemma SplitRefUnique(key: string, path: string)
    requires Dots(key) == 1
    requires path == "" || path[0] == '.'
    ensures SplitRef(key + path) == (key, path)
  {
    var s := key + path;
    var (k, p) := SplitRef(s);
    SplitRefParts(s);
    DotsOfConcat(key, path);
    if |k| < |key| {
      assert p != "" && p[0] == '.';
      assert key == k + key[|k|..] && key[|k|] == s[|k|] == p[0];
      DotsOfConcat(k, key[|k|..]);
    } else if |k| > |key| {
      assert path != "" && k == key + k[|key|..] && k[|key|] == s[|key|] == path[0];
      DotsOfConcat(key, k[|key|..]);
    } else {
      assert k == s[..|k|] == key && p == s[|k|..] == path;
    }
  }

  datatype Side = Inputs | Outputs

  function Suffix(side: Side): string {
    match side
    case Inputs => ".inputs"
    case Outputs => ".outputs"
  }

  /** The store key of one side of a step. */
  function StoreKey(id: string, side: Side): string {
    id + Suffix(side)
  }

  lemma SuffixHasOneDot(side: Side)
    ensures Dots(Suffix(side)) == 1
  {
    var rest := if side == Inputs then "inputs" else "outputs";
    assert Suffix(side) == "." + rest;
    NoDots(rest);
    DotsOfConcat(".", rest);
    assert Dots(".") == 1;
  }

  /** Store keys never collide. */
  lemma StoreKeysDistinct(id: string, side: Side, other: string, otherSide: Side)
    ensures StoreKey(id, side) == StoreKey(other, otherSide) <==> id == other && side == otherSide
  {
    var a, b := StoreKey(id, side), StoreKey(other, otherSide);
    assert a[|a| - 7] == if side == Inputs then '.' else 'o';
    assert b[|b| - 7] == if otherSide == Inputs then '.' else 'o';
    if a == b {
      assert a[..|id|] == id && b[..|other|] == other;
    }
  }

  /** Splitting undoes the formatting of a store key with a path behind it exactly for a step id
      without dots, and a path that is empty or begins with a dot: no reference ever reaches a step
      whose id has a dot, and `$id.outputs[0]` names no step. */
  lemma SplitUndoesStoreKey(id: string, side: Side, path: string)
    ensures SplitRef(StoreKey(id, side) + path) == (StoreKey(id, side), path)
       <==> '.' !in id && (path == "" || path[0] == '.')
  {
    var key := StoreKey(id, side);
    SuffixHasOneDot(side);
    DotsOfConcat(id, Suffix(side));
    NoDots(id);
    SplitRefParts(key + path);
    if Dots(key) == 1 && (path == "" || path[0] == '.') {
      SplitRefUnique(key, path);
    }
  }

  /** A step with a dot in its id is out of reach: no reference splits to its key. */
  lemma DottedStepIsUnreachable(id: string, side: Side, ref: string)
    requires '.' in id
    ensures SplitRef(ref).0 != StoreKey(id, side)
  {
    SplitRefParts(ref);
    SuffixHasOneDot(side);
    DotsOfConcat(id, Suffix(side));
    NoDots(id);
  }

  lemma {:induction false} SameBeforeFirstDot(a: string, x: string, b: string, y: string)
    requires '.' !in a && '.' !in b
    requires a + x == b + y && x != "" && x[0] == '.' && (y == "" || y[0] == '.')
    ensures a == b
  {
    assert forall i :: 0 <= i < |b| ==> (b + y)[i] == b[i];
    if a != "" {
      assert (a + x)[0] == a[0];
      assert (a + x)[1..] == a[1..] + x && (b + y)[1..] == b[1..] + y;
      SameBeforeFirstDot(a[1..], x, b[1..], y);
    } else {
      assert (a + x)[0] == '.';
    }
  }

  lemma InputsExprIff(id: string, rest: string)
    requires '.' !in id && rest != "" && rest[0] == '.'
    ensures HasFlowInputsExpr("$" + (id + rest)) <==> id == "inputs"
  {
    var t := id + rest;
    var s := "$" + t;
    assert s[1..] == t;
    if HasFlowInputsExpr(s) {
      assert t == "inputs" + s[7..];
      SameBeforeFirstDot(id, rest, "inputs", s[7..]);
    }
    if id == "inputs" {
      assert s[..7] == "$" + id;
    }
  }

  /** The first pass takes no reference to a step, except to a step called `inputs`. */
  lemma StepReferenceIsLeftForLater(id: string, side: Side, path: string)
    requires '.' !in id
    ensures IsPassedRef("$" + (StoreKey(id, side) + path))
    ensures HasFlowInputsExpr("$" + (StoreKey(id, side) + path)) <==> id == "inputs"
  {
    InputsExprIff(id, Suffix(side) + path);
    assert StoreKey(id, side) + path == id + (Suffix(side) + path);
  }

  // ---------------------------------------------------------------- what a step reference stands for

  function TrimLeft(s: string): (r: string)
    ensures r == "" || r[0] !in " \t\r\n"
    ensures |r| <= |s| && s[|s| - |r|..] == r
    ensures forall i :: 0 <= i < |s| - |r| ==> s[i] in " \t\r\n"
  {
    if s != "" && s[0] in " \t\r\n" then TrimLeft(s[1..]) else s
  }

  lemma TrimmedAt(t: string, n: nat)
    requires n <= |t| && (forall k :: 0 <= k < n ==> t[k] in " \t\r\n") && (n < |t| ==> t[n] !in " \t\r\n")
    ensures TrimLeft(t) == t[n..]
  {
  }

  /** Reading a path in a stored value. A text is decoded if it looks like an object or an array,
      handed over as it is (but trimmed on the left, the path dropped) if it looks like anything
      else, and an error if blank. */
  function Reading(lib: Library, stored: Json, path: string): Option<Json> {
    if !stored.JStr? then Query(lib, path, stored)
    else
      var x := TrimLeft(stored.s);
      if x == "" then None
      else if x[0] != '{' && x[0] != '[' then Some(JStr(x))
      else
        var decoded := lib.decode(stored.s);
        if decoded.None? then None else Query(lib, path, decoded.value)
  }

  function PassedValue(lib: Library, store: map<string, Json>, ref: string): Option<Json> {
    if !IsPassedRef(ref) then None
    else
      var (key, path) := SplitRef(ref[1..]);
      if key in store then Reading(lib, store[key], path) else None
  }

  /** The pass that fills in what earlier steps left in the store. */
  function Passed(lib: Library, store: map<string, Json>): Resolver {
    Resolver(IsPassedRef, (s: string) => PassedValue(lib, store, s))
  }
}
