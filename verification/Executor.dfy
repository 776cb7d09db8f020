/** pkg/agent/executor/executor.go: running a V1 service step by step. What a command does is
    unknown, so each step's outcome is a parameter. */
module Executors {
  import opened Wrappers
  import opened ServiceModel

  /** How one step goes: no commander can be built, the command fails, or it yields a body. */
  datatype Outcome = NoCommander(error: string) | CommandFailed(error: string) | Body(text: string)

  // ---------------------------------------------------------------- meaning of a V1 run

  /** The messages a V1 run sends from step `i` on. */
  function TraceFrom(id: Uuid, outcomes: seq<Outcome>, i: nat): seq<Update>
    requires i <= |outcomes|
    decreases |outcomes| - i
  {
    var n := |outcomes|;
    if i == n then []
    else if outcomes[i].Body? then
      [Update(id, n, i, StepProcessing), Update(id, n, i, StepSuccess)] + TraceFrom(id, outcomes, i + 1)
    else
      [Update(id, n, i, StepProcessing), Update(id, n, i, StepFail)]
  }

  /** Nothing fails. */
  predicate AllBodies(outcomes: seq<Outcome>) {
    forall i :: 0 <= i < |outcomes| ==> outcomes[i].Body?
  }

  /** One finished step in front of a legal trace of the later steps. */
  lemma LegalCons(id: Uuid, n: nat, i: nat, rest: seq<Update>)
    requires i + 1 < n
    requires LegalTrace(id, rest) && rest[0].stepCount == n && i < rest[0].sequence
    ensures LegalTrace(id, [Update(id, n, i, StepProcessing), Update(id, n, i, StepSuccess)] + rest)
  {
    var t := [Update(id, n, i, StepProcessing), Update(id, n, i, StepSuccess)] + rest;
    forall j | 2 <= j < |t| ensures t[j] == rest[j - 2] { }
    forall j | 0 <= j < |rest| ensures rest[0].sequence <= rest[j].sequence { }
  }

  lemma {:induction false} TraceFromShape(id: Uuid, outcomes: seq<Outcome>, i: nat)
    requires i < |outcomes|
    requires forall k :: 0 <= k < i ==> outcomes[k].Body?
    ensures var t := TraceFrom(id, outcomes, i);
      && LegalTrace(id, t)
      && |t| <= 2 * (|outcomes| - i)
      && i <= t[0].sequence
      && t[0].stepCount == |outcomes|
      && Verdict(t) == if AllBodies(outcomes) then Success else Failed
    decreases |outcomes| - i
  {
    var n, t := |outcomes|, TraceFrom(id, outcomes, i);
    if outcomes[i].Body? {
      if i + 1 < n {
        TraceFromShape(id, outcomes, i + 1);
        var rest := TraceFrom(id, outcomes, i + 1);
        LegalCons(id, n, i, rest);
        assert t[|t| - 1] == rest[|rest| - 1];
      } else {
        assert TraceFrom(id, outcomes, i + 1) == [];
        assert t == [Update(id, n, i, StepProcessing), Update(id, n, i, StepSuccess)];
      }
    }
  }

  /** A non-empty V1 service sends at most two messages a step, in the grammar the scheduler
      relies on, and its verdict is success exactly when no step failed. */
  lemma V1TraceIsLegal(id: Uuid, outcomes: seq<Outcome>)
    requires outcomes != []
    ensures var t := TraceFrom(id, outcomes, 0);
      && LegalTrace(id, t)
      && |t| <= 2 * |outcomes|
      && (Verdict(t) == Success <==> AllBodies(outcomes))
      && (Verdict(t) == Failed <==> !AllBodies(outcomes))
  {
    TraceFromShape(id, outcomes, 0);
  }

  /** The same on the fields of the messages. */
  lemma V1Messages(id: Uuid, outcomes: seq<Outcome>)
    requires outcomes != []
    ensures var t, n := TraceFrom(id, outcomes, 0), |outcomes|;
      && t != []
      && (forall j :: 0 <= j < |t| ==> t[j].id == id && t[j].stepCount == n && 0 <= t[j].sequence < n)
      && (forall i, j :: 0 <= i < j < |t| ==> t[i].sequence <= t[j].sequence)
      && (forall j :: 0 <= j < |t| - 1 ==>
            t[j].status == StepProcessing || (t[j].status == StepSuccess && t[j].sequence < n - 1))
      && t[|t| - 1].status == (if forall k :: 0 <= k < n ==> outcomes[k].Body? then StepSuccess else StepFail)
      && ((forall k :: 0 <= k < n ==> outcomes[k].Body?) ==> t[|t| - 1].sequence == n - 1)
  {
    V1Fields(id, outcomes, 0);
  }

  lemma {:induction false} V1Fields(id: Uuid, outcomes: seq<Outcome>, i: nat)
    requires i < |outcomes| && forall k :: 0 <= k < i ==> outcomes[k].Body?
    ensures var t, n := TraceFrom(id, outcomes, i), |outcomes|;
      && t != []
      && (forall j :: 0 <= j < |t| ==> t[j].id == id && t[j].stepCount == n && i <= t[j].sequence < n)
      && (forall i, j :: 0 <= i < j < |t| ==> t[i].sequence <= t[j].sequence)
      && (forall j :: 0 <= j < |t| - 1 ==>
            t[j].status == StepProcessing || (t[j].status == StepSuccess && t[j].sequence < n - 1))
      && t[|t| - 1].status == (if forall k :: 0 <= k < n ==> outcomes[k].Body? then StepSuccess else StepFail)
      && ((forall k :: 0 <= k < n ==> outcomes[k].Body?) ==> t[|t| - 1].sequence == n - 1)
    decreases |outcomes| - i
  {
    var n, t := |outcomes|, TraceFrom(id, outcomes, i);
    if outcomes[i].Body? && i + 1 < n {
      V1Fields(id, outcomes, i + 1);
      var rest := TraceFrom(id, outcomes, i + 1);
      assert t == [Update(id, n, i, StepProcessing), Update(id, n, i, StepSuccess)] + rest;
      assert forall j :: 2 <= j < |t| ==> t[j] == rest[j - 2];
    } else if outcomes[i].Body? {
      assert TraceFrom(id, outcomes, i + 1) == [];
      assert t == [Update(id, n, i, StepProcessing), Update(id, n, i, StepSuccess)];
    }
  }

  /** What the run leaves in the service: the last body, or the first error. */
  function FinalResult(outcomes: seq<Outcome>, i: nat, last: string): Result<string, string>
    requires i <= |outcomes|
    decreases |outcomes| - i
  {
    if i == |outcomes| then Ok(last)
    else match outcomes[i]
      case Body(text) => FinalResult(outcomes, i + 1, text)
      case NoCommander(e) => Err(e)
      case CommandFailed(e) => Err(e)
  }

  lemma {:induction false} FinalResultOkIffNothingFails(outcomes: seq<Outcome>, i: nat, last: string)
    requires i <= |outcomes|
    requires forall k :: 0 <= k < i ==> outcomes[k].Body?
    ensures FinalResult(outcomes, i, last).Ok? <==> AllBodies(outcomes)
    decreases |outcomes| - i
  {
    if i < |outcomes| && outcomes[i].Body? {
      FinalResultOkIffNothingFails(outcomes, i + 1, outcomes[i].text);
    }
  }

  /** The error of the first step that fails, and else the body of the last one. */
  lemma {:induction false} FinalResultIs(outcomes: seq<Outcome>, i: nat, last: string, k: nat)
    requires i <= k <= |outcomes| && forall m :: i <= m < k ==> outcomes[m].Body?
    ensures k < |outcomes| && !outcomes[k].Body? ==> FinalResult(outcomes, i, last) == Err(outcomes[k].error)
    ensures k == |outcomes| ==>
              FinalResult(outcomes, i, last) == Ok(if i == k then last else outcomes[k - 1].text)
    decreases k - i
  {
    if i < k {
      FinalResultIs(outcomes, i + 1, outcomes[i].text, k);
    }
  }

  // ---------------------------------------------------------------- the executor object

  class ServiceExecutor {
    const id: Uuid
    const stepCount: nat
    var status: ServiceStatus
    var stepStatuses: seq<StepStatus>
    var result: Result<string, string>
    var channel: seq<Update>

    constructor (id: Uuid, stepCount: nat)
      ensures this.id == id && this.stepCount == stepCount
      ensures channel == [] && |stepStatuses| == stepCount
    {
      this.id := id;
      this.stepCount := stepCount;
      status := Preparing;
      stepStatuses := seq(stepCount, _ => StepPreparing);
      result := Ok("");
      channel := [];
    }

    method SendServiceStatusUpdate(sequence: nat, status: StepStatus)
      modifies this`channel
      ensures channel == old(channel) + [Update(id, stepCount, sequence, status)]
    {
      channel := channel + [Update(id, stepCount, sequence, status)];
    }

    method Execute(outcomes: seq<Outcome>) returns (r: Result<string, string>)
      requires |outcomes| == stepCount == |stepStatuses|
      modifies this
      ensures channel == old(channel) + TraceFrom(id, outcomes, 0)
      ensures r == result == FinalResult(outcomes, 0, "")
      ensures (forall m :: 0 <= m < stepCount ==> outcomes[m].Body?) ==>
                r == Ok(if stepCount == 0 then "" else outcomes[stepCount - 1].text)
      ensures forall k :: 0 <= k < stepCount && !outcomes[k].Body? && (forall m :: 0 <= m < k ==> outcomes[m].Body?)
                ==> r == Err(outcomes[k].error)
      ensures status == if AllBodies(outcomes) then Success else Failed
      ensures |stepStatuses| == stepCount
      ensures forall k :: 0 <= k < stepCount && (forall m :: 0 <= m <= k ==> outcomes[m].Body?)
                ==> stepStatuses[k] == StepSuccess
      ensures forall k :: 0 <= k < stepCount && !outcomes[k].Body? && (forall m :: 0 <= m < k ==> outcomes[m].Body?)
                ==> stepStatuses[k] == StepFail
    {
      ghost var before := channel;
      status := Processing;
      var last := "";
      var i := 0;
      while i < stepCount
        invariant 0 <= i <= stepCount == |stepStatuses|
        invariant forall k :: 0 <= k < i ==> outcomes[k].Body? && stepStatuses[k] == StepSuccess
        invariant channel + TraceFrom(id, outcomes, i) == before + TraceFrom(id, outcomes, 0)
        invariant FinalResult(outcomes, 0, "") == FinalResult(outcomes, i, last)
      {
        ghost var sent := channel;
        stepStatuses := stepStatuses[i := StepProcessing];
        SendServiceStatusUpdate(i, StepProcessing);
        match outcomes[i] {
          case NoCommander(e) =>
            stepStatuses := stepStatuses[i := StepFail];
            SendServiceStatusUpdate(i, StepFail);
            status := Failed;
            result := Err(e);
            FinalResultIs(outcomes, 0, "", i);
            assert channel == sent + TraceFrom(id, outcomes, i);
            return result;
          case CommandFailed(e) =>
            stepStatuses := stepStatuses[i := StepFail];
            SendServiceStatusUpdate(i, StepFail);
            status := Failed;
            result := Err(e);
            FinalResultIs(outcomes, 0, "", i);
            assert channel == sent + TraceFrom(id, outcomes, i);
            return result;
          case Body(text) =>
            last := text;
            stepStatuses := stepStatuses[i := StepSuccess];
            SendServiceStatusUpdate(i, StepSuccess);
            assert channel + TraceFrom(id, outcomes, i + 1) == sent + TraceFrom(id, outcomes, i);
        }
        i := i + 1;
      }
      FinalResultIs(outcomes, 0, "", i);
      status := Success;
      result := Ok(last);
      return result;
    }
  }
}
