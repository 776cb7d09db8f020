/** Where the exceptions come from: each service that a run counts as forgotten, capped or overtaken got
    there by one step of the run, under conditions that can be read off the state before it. */
module DeliveryCauses {
  import opened ServiceModel
  import opened PollVault
  import opened Delivery
  import opened DeliveryOnce

  // ---------------------------------------------------------------- the three causes

  /** A cleanup drops the finished entry of a service that a request has picked for the agent. */
  ghost predicate DroppedInFlight(s: State, step: Step, id: Uuid) {
    && step.Cleanup?
    && id in s.statuses && (s.statuses[id] == Success || s.statuses[id] == Failed)
    && ((s.phase.Selected? && exists p :: p in s.phase.batch && p.service.uuid == id)
        || (s.phase.Answered? && id in s.phase.services))
  }

  /** A poll that is full leaves out a service that it might have handed out, none of those it hands out
      comes after it. */
  ghost predicate CutOff(c: Config, s: State, step: Step, s': State, id: Uuid) {
    && step.ReadStatuses? && s.phase.RowsRead? && s'.phase.Selected?
    && |s'.phase.batch| >= (if c.pollLimit == 0 then 128 else c.pollLimit + 1)
    && exists p :: p in step.polled && p !in s'.phase.batch && p.service.uuid == id
         && p.lastStatus.status != Succeeded && p.lastStatus.status != ManagerFailed
         && (c.timelimit > 0 ==> s.phase.ltime < p.service.created)
         && forall q :: q in s'.phase.batch ==>
              && p.service.priority <= q.service.priority
              && (p.service.priority == q.service.priority ==> q.service.created <= p.service.created)
  }

  /** The v3 half of a request that found no v4 service finds only newer services. */
  ghost predicate PassedBy(s: State, step: Step, id: Uuid) {
    && step.SelectV3? && s.phase.BetweenHalves? && step.v3batch != []
    && exists row, n :: 0 <= n < |s.services| && s.services[n] == row && row.uuid == id
         && (forall b :: b in step.v3batch ==> row.created < b.created)
         && (s.phase.seen <= n || id in s.overtaken || id in s.capped)
  }

  /** No v3 half has come since, so none has cleared this. */
  ghost predicate PassedSince(states: seq<State>, steps: seq<Step>, k: nat, i: nat, id: Uuid)
    requires i <= |steps| && i < |states|
  {
    k < i && PassedBy(states[k], steps[k], id) && forall m :: k < m < i ==> !steps[m].SelectV3?
  }

  /** The same for a full poll. */
  ghost predicate CutOffSince(c: Config, states: seq<State>, steps: seq<Step>, k: nat, i: nat, id: Uuid)
    requires i <= |steps| && i < |states|
  {
    && k < i && CutOff(c, states[k], steps[k], states[k + 1], id)
    && forall m :: k < m < i ==> !steps[m].SelectV3?
  }

  ghost predicate DroppedAt(states: seq<State>, steps: seq<Step>, k: nat, id: Uuid) {
    k < |steps| && k < |states| && DroppedInFlight(states[k], steps[k], id)
  }

  // ---------------------------------------------------------------- one step

  lemma ForgottenNow(c: Config, s: State, step: Step, id: Uuid)
    requires Enabled(c, s, step) && id in Next(c, s, step).forgotten && id !in s.forgotten
    ensures DroppedInFlight(s, step, id)
  {
  }

  lemma CappedNow(c: Config, s: State, step: Step, id: Uuid)
    requires Enabled(c, s, step) && id in Next(c, s, step).capped && id !in s.capped
    ensures CutOff(c, s, step, Next(c, s, step), id)
  {
    var ltime := s.phase.ltime;
    var p :| p in step.polled && Eligible(p, c.timelimit, ltime)
             && p !in Selection(step.polled, c.pollLimit, c.timelimit, ltime) && p.service.uuid == id;
    SelectionIs(step.polled, c.pollLimit, c.timelimit, ltime, p);
    forall q | q in Selection(step.polled, c.pollLimit, c.timelimit, ltime)
      ensures p.service.priority <= q.service.priority
      ensures p.service.priority == q.service.priority ==> q.service.created <= p.service.created
    {
      SelectionIsBestFirst(step.polled, c.pollLimit, c.timelimit, ltime, q, p);
    }
  }

  lemma OvertakenIn(c: Config, s: State, step: Step, id: Uuid)
    requires Enabled(c, s, step) && step.SelectV3? && id in Next(c, s, step).overtaken
    ensures PassedBy(s, step, id)
  {
    var times := V3CreatedTimes(step.v3batch);
    var row :| row in s.services && row.created < Oldest(times) && row.uuid == id
               && (row in s.services[s.phase.seen..] || row.uuid in s.overtaken + s.capped);
    OldestIsLeast(times);
    forall b | b in step.v3batch ensures row.created < b.created {
      var i :| 0 <= i < |step.v3batch| && step.v3batch[i] == b;
      assert times[i] == b.created;
    }
    if row in s.services[s.phase.seen..] {
      var m :| 0 <= m < |s.services| - s.phase.seen && s.services[s.phase.seen..][m] == row;
      assert s.services[s.phase.seen + m] == row;
    } else {
      var n :| 0 <= n < |s.services| && s.services[n] == row;
    }
  }

  // ---------------------------------------------------------------- every run

  /** In every run a service is forgotten only because of such a cleanup. */
  lemma {:induction false} ForgottenBy(c: Config, states: seq<State>, steps: seq<Step>, i: nat, id: Uuid)
    requires IsRun(c, states, steps) && i < |states| && id in states[i].forgotten
    ensures exists k :: 0 <= k < i && DroppedAt(states, steps, k, id)
  {
    if i > 0 {
      assert states[i] == Next(c, states[i - 1], steps[i - 1]);
      if id in states[i - 1].forgotten {
        ForgottenBy(c, states, steps, i - 1, id);
      } else {
        ForgottenNow(c, states[i - 1], steps[i - 1], id);
        assert DroppedAt(states, steps, i - 1, id);
      }
    }
  }

  /** It is capped only because of a full poll since the last reset of the offset. */
  lemma {:induction false} CappedBy(c: Config, states: seq<State>, steps: seq<Step>, i: nat, id: Uuid)
    requires IsRun(c, states, steps) && i < |states| && id in states[i].capped
    ensures exists k :: 0 <= k < i && CutOffSince(c, states, steps, k, i, id)
  {
    if i > 0 {
      assert states[i] == Next(c, states[i - 1], steps[i - 1]);
      if id in states[i - 1].capped {
        CappedBy(c, states, steps, i - 1, id);
        var k :| 0 <= k < i - 1 && CutOffSince(c, states, steps, k, i - 1, id);
        assert CutOffSince(c, states, steps, k, i, id);
      } else {
        CappedNow(c, states[i - 1], steps[i - 1], id);
        assert CutOffSince(c, states, steps, i - 1, i, id);
      }
    }
  }

  /** It is overtaken only because the v3 half of a request passed it, and no v3 half since then came after. */
  lemma {:induction false} OvertakenBy(c: Config, states: seq<State>, steps: seq<Step>, i: nat, id: Uuid)
    requires IsRun(c, states, steps) && i < |states| && id in states[i].overtaken
    ensures exists k :: 0 <= k < i && PassedSince(states, steps, k, i, id)
  {
    if i > 0 {
      var s, step := states[i - 1], steps[i - 1];
      assert states[i] == Next(c, s, step);
      if step.SelectV3? {
        OvertakenIn(c, s, step, id);
        assert PassedSince(states, steps, i - 1, i, id);
      } else {
        OvertakenBy(c, states, steps, i - 1, id);
        var k :| 0 <= k < i - 1 && PassedSince(states, steps, k, i - 1, id);
        assert PassedSince(states, steps, k, i, id);
      }
    }
  }

  // ---------------------------------------------------------------- marked before it was recorded

  ghost predicate Told(step: Step, k: nat, j: nat) {
    (step.Commit? || step.LateCommit?) && step.k == k && step.j == j
  }

  /** Not sent yet, or sent and not recorded. */
  ghost predicate Untold(s: State, k: nat, j: nat) {
    k >= |s.execs| || j >= |s.execs[k].stages| || s.execs[k].stages[j] == Emitted || s.execs[k].stages[j] == Lost
  }

  lemma UntoldStep(c: Config, s: State, step: Step, k: nat, j: nat)
    requires Enabled(c, s, step) && Untold(Next(c, s, step), k, j)
    ensures Untold(s, k, j) && !Told(step, k, j)
  {
  }

  lemma {:induction false} UntoldBefore(c: Config, states: seq<State>, steps: seq<Step>, i: nat, m: nat, k: nat, j: nat)
    requires IsRun(c, states, steps) && m < i < |states| && Untold(states[i], k, j)
    ensures !Told(steps[m], k, j)
  {
    var s, step := states[i - 1], steps[i - 1];
    assert Enabled(c, s, step) && states[i] == Next(c, s, step);
    UntoldStep(c, s, step, k, j);
    if m < i - 1 {
      UntoldBefore(c, states, steps, i - 1, m, k, j);
    }
  }

  ghost predicate EarlyMark(s: State, k: nat, j: nat) {
    && k < |s.execs| && j < |s.execs[k].stages|
    && (s.execs[k].stages[j] == Applied(Missing) || s.execs[k].stages[j] == Applied(Late))
  }

  lemma EarlyMarkStep(c: Config, s: State, step: Step, k: nat, j: nat)
    requires Enabled(c, s, step) && EarlyMark(Next(c, s, step), k, j)
    ensures EarlyMark(s, k, j) || (step == Apply(k, j) && Untold(s, k, j))
  {
  }

  /** The agent marked the message at a step before which the manager had not recorded it. */
  ghost predicate MarkedUntold(steps: seq<Step>, m: nat, k: nat, j: nat) {
    m < |steps| && steps[m] == Apply(k, j) && forall n :: 0 <= n < m ==> !Told(steps[n], k, j)
  }

  lemma {:induction false} EarlyMarkBy(c: Config, states: seq<State>, steps: seq<Step>, i: nat, k: nat, j: nat)
    requires IsRun(c, states, steps) && i < |states| && EarlyMark(states[i], k, j)
    ensures exists m :: 0 <= m < i && MarkedUntold(steps, m, k, j)
  {
    if i > 0 {
      assert states[i] == Next(c, states[i - 1], steps[i - 1]);
      EarlyMarkStep(c, states[i - 1], steps[i - 1], k, j);
      if EarlyMark(states[i - 1], k, j) {
        EarlyMarkBy(c, states, steps, i - 1, k, j);
      } else {
        forall n | 0 <= n < i - 1 ensures !Told(steps[n], k, j) {
          UntoldBefore(c, states, steps, i - 1, n, k, j);
        }
        assert MarkedUntold(steps, i - 1, k, j);
      }
    }
  }

  /** In every run a service counts as marked first only if the agent did mark a last message of it, a failure
      or the success of the last step, before the manager had recorded that message. */
  lemma MarkedFirstBy(c: Config, states: seq<State>, steps: seq<Step>, i: nat, id: Uuid)
    requires IsRun(c, states, steps) && i < |states| && MarkedFirst(states[i].execs, id)
    ensures exists k, j, m ::
              && 0 <= k < |states[i].execs| && states[i].execs[k].id == id && 0 <= j < |states[i].execs[k].trace|
              && 0 <= m < i && MarkedUntold(steps, m, k, j)
              && var u := states[i].execs[k].trace[j];
                 u.status == StepFail || (u.status == StepSuccess && u.stepCount == u.sequence + 1)
  {
    var k: nat, j: nat :| k < |states[i].execs| && states[i].execs[k].id == id && MarkedFirstAt(states[i].execs[k], j);
    EarlyMarkBy(c, states, steps, i, k, j);
    var m: nat :| 0 <= m < i && MarkedUntold(steps, m, k, j);
    assert Terminal(LocalStatus(states[i].execs[k].trace[j]));
  }
}
