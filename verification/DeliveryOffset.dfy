/** The polling offset hides no service that still has to run, except one that a capped poll left
    behind, or one that the v3 half of a request moved the offset past: created since that request
    began, or skipped already. */
module DeliveryOffset {
  import opened Wrappers
  import opened ServiceModel
  import opened PollVault
  import opened Delivery
  import opened DeliveryOnce

  ghost predicate Skipped(s: State, id: Uuid) {
    id in s.overtaken || id in s.capped
  }

  /** Not concluded, inside the validity window, and not one of the two exceptions. */
  ghost predicate Waiting(s: State, row: ServiceRow, ltime: int) {
    !Concluded(s.log, row.uuid) && !Skipped(s, row.uuid) && row.created > ltime
  }

  ghost predicate Clocked(s: State) {
    && (forall i, k :: 0 <= i < k < |s.services| ==> s.services[i].created <= s.services[k].created)
    && (forall i :: 0 <= i < |s.services| ==> s.services[i].created <= s.now)
    && (forall b :: b in s.v3services ==> b.created <= s.now)
    && (s.offset.Some? ==> s.offset.value <= s.now)
  }

  ghost predicate Reaches(offset: Option<int>, row: ServiceRow) {
    offset.None? || offset.value <= row.created
  }

  ghost predicate InBatch(batch: seq<ServicePolling>, row: ServiceRow) {
    exists p :: p in batch && p.service == row
  }

  ghost predicate PhaseInv(c: Config, s: State) {
    var ltime := WindowStart(s.now, c.timelimit);
    match s.phase
    case RowsRead(from, ltime0, seen) =>
      && seen <= |s.services| && ltime0 <= ltime && from == EffectiveOffset(s.offset, ltime0)
      && forall i :: 0 <= i < seen && Waiting(s, s.services[i], ltime0) ==> from <= s.services[i].created
    case Selected(batch, seen) =>
      && seen <= |s.services|
      && (forall p :: p in batch ==> p.service in s.services[..seen])
      && forall i :: 0 <= i < seen && Waiting(s, s.services[i], ltime) ==> InBatch(batch, s.services[i])
    case BetweenHalves(seen) =>
      && seen <= |s.services| && s.offset == Some(0)
      && forall i :: 0 <= i < seen ==> !Waiting(s, s.services[i], ltime)
    case V3Selected(batch) =>
      && s.offset == Some(0) && (forall b :: b in batch ==> b.created <= s.now)
      && forall i :: 0 <= i < |s.services| && Waiting(s, s.services[i], ltime) ==>
           Oldest(V3CreatedTimes(batch)) <= s.services[i].created
    case _ => true
  }

  ghost predicate OffsetInv(c: Config, s: State) {
    && Clocked(s)
    && (forall i :: 0 <= i < |s.services| && Waiting(s, s.services[i], WindowStart(s.now, c.timelimit)) ==>
          Reaches(s.offset, s.services[i]))
    && PhaseInv(c, s)
  }

  lemma WindowMoves(t: Time, t': Time, timelimit: int)
    requires t <= t'
    ensures WindowStart(t, timelimit) <= WindowStart(t', timelimit)
  {
  }

  /** Time and history only ever take services off the waiting list. */
  lemma WaitingShrinks(s: State, s': State, row: ServiceRow, ltime: int, ltime': int)
    requires s.log <= s'.log && s.overtaken <= s'.overtaken && s.capped <= s'.capped && ltime <= ltime'
    requires Waiting(s', row, ltime')
    ensures Waiting(s, row, ltime)
  {
    forall r | r in s.log ensures r in s'.log { }
  }

  /** Steps that leave tables, offset and phase alone. */
  lemma OffsetFrame(c: Config, s: State, s': State)
    requires OffsetInv(c, s)
    requires s'.services == s.services && s'.v3services == s.v3services && s'.offset == s.offset && s'.phase == s.phase
    requires s.log <= s'.log && s.now <= s'.now && s.overtaken <= s'.overtaken && s.capped <= s'.capped
    ensures OffsetInv(c, s')
  {
    var lt, lt' := WindowStart(s.now, c.timelimit), WindowStart(s'.now, c.timelimit);
    WindowMoves(s.now, s'.now, c.timelimit);
    forall i | 0 <= i < |s.services| && Waiting(s', s.services[i], lt') ensures Waiting(s, s.services[i], lt) {
      WaitingShrinks(s, s', s.services[i], lt, lt');
    }
    if s.phase.RowsRead? {
      forall i | 0 <= i < s.phase.seen && Waiting(s', s.services[i], s.phase.ltime)
        ensures Waiting(s, s.services[i], s.phase.ltime)
      {
        WaitingShrinks(s, s', s.services[i], s.phase.ltime, s.phase.ltime);
      }
    }
  }

  lemma OffsetCreateV3(c: Config, s: State, step: Step)
    requires OffsetInv(c, s) && step.CreateV3? && Enabled(c, s, step)
    ensures OffsetInv(c, Next(c, s, step))
  {
    var s' := s.(v3services := s.v3services + [step.serv], now := step.serv.created);
    GrownOffset(c, s, s');
  }

  lemma OffsetCreate(c: Config, s: State, step: Step)
    requires OffsetInv(c, s) && step.Create? && Enabled(c, s, step)
    ensures OffsetInv(c, Next(c, s, step))
  {
    var s' := s.(services := s.services + [step.row], now := step.row.created);
    NewRowReached(c, s, step.row);
    GrownOffset(c, s, s');
  }

  /** New rows are dated now or later; they come after everything a request has seen. */
  lemma GrownOffset(c: Config, s: State, s': State)
    requires OffsetInv(c, s) && s.services <= s'.services && s.now <= s'.now && Clocked(s')
    requires s'.offset == s.offset && s'.phase == s.phase && s'.log == s.log
    requires s'.overtaken == s.overtaken && s'.capped == s.capped
    requires forall i :: |s.services| <= i < |s'.services| ==>
               && Reaches(s.offset, s'.services[i])
               && (s.phase.V3Selected? ==> Oldest(V3CreatedTimes(s.phase.v3batch)) <= s'.services[i].created)
    ensures OffsetInv(c, s')
  {
    var lt, lt' := WindowStart(s.now, c.timelimit), WindowStart(s'.now, c.timelimit);
    WindowMoves(s.now, s'.now, c.timelimit);
    forall i | 0 <= i < |s.services| && Waiting(s', s'.services[i], lt') ensures Waiting(s, s.services[i], lt) {
      WaitingShrinks(s, s', s.services[i], lt, lt');
    }
    if s.phase.RowsRead? {
      forall i | 0 <= i < s.phase.seen && Waiting(s', s'.services[i], s.phase.ltime)
        ensures Waiting(s, s.services[i], s.phase.ltime)
      {
        WaitingShrinks(s, s', s.services[i], s.phase.ltime, s.phase.ltime);
      }
    }
    if s.phase.Selected? {
      assert s'.services[..s.phase.seen] == s.services[..s.phase.seen];
    }
  }

  /** A service created now is no older than anything a saved or pending offset comes from. */
  lemma NewRowReached(c: Config, s: State, row: ServiceRow)
    requires OffsetInv(c, s) && row.created >= s.now
    ensures s.phase.V3Selected? ==> Oldest(V3CreatedTimes(s.phase.v3batch)) <= row.created
  {
    if s.phase.V3Selected? {
      var times := V3CreatedTimes(s.phase.v3batch);
      OldestIsLeast(times);
      if times != [] {
        assert s.phase.v3batch[0] in s.phase.v3batch;
        assert times[0] == s.phase.v3batch[0].created;
      }
    }
  }

  lemma OffsetReadServices(c: Config, s: State, step: Step)
    requires OffsetInv(c, s) && step.ReadServices? && Enabled(c, s, step)
    ensures OffsetInv(c, Next(c, s, step))
  {
    var s' := Next(c, s, step);
    forall i, ltime | 0 <= i < |s.services| && Waiting(s', s.services[i], ltime)
      ensures Waiting(s, s.services[i], ltime)
    {
      WaitingShrinks(s, s', s.services[i], ltime, ltime);
    }
  }

  /** Every service the request had to find is in its batch, unless the poll was full. */
  lemma EverythingWaitingIsSelected(c: Config, s: State, step: Step, i: nat)
    requires TablesOk(c, s) && LogOk(c, s) && PhaseInv(c, s) && step.ReadStatuses? && Enabled(c, s, step)
    requires i < s.phase.seen && Waiting(Next(c, s, step), s.services[i], s.phase.ltime)
    ensures InBatch(Next(c, s, step).phase.batch, s.services[i])
  {
    var s', row := Next(c, s, step), s.services[i];
    WaitingShrinks(s, s', row, s.phase.ltime, s.phase.ltime);
    var p := ServicePolling(row, Latest(Default(row), s.log));
    PolledFacts(c, s, s.phase.from, s.phase.seen, step.polled);
    assert row == s.services[..s.phase.seen][i];
    assert p in step.polled;
    LatestIsNewest(Default(row), s.log);
    assert Unfinished(p.lastStatus.status);
    assert Eligible(p, c.timelimit, s.phase.ltime);
    var beyond := BeyondCap(step.polled, c, s.phase.ltime);
    assert p !in s'.phase.batch ==> row.uuid in beyond;
  }

  lemma OffsetReadStatuses(c: Config, s: State, step: Step)
    requires OffsetInv(c, s) && TablesOk(c, s) && LogOk(c, s) && step.ReadStatuses? && Enabled(c, s, step)
    ensures OffsetInv(c, Next(c, s, step))
  {
    var s' := Next(c, s, step);
    var lt := WindowStart(s.now, c.timelimit);
    PolledFacts(c, s, s.phase.from, s.phase.seen, step.polled);
    forall p | p in s'.phase.batch ensures p.service in s.services[..s.phase.seen] {
      SelectionMembers(step.polled, c.pollLimit, c.timelimit, s.phase.ltime, p);
    }
    forall i | 0 <= i < |s.services| && Waiting(s', s.services[i], lt)
      ensures Waiting(s, s.services[i], lt)
      ensures i < s.phase.seen ==> InBatch(s'.phase.batch, s.services[i])
    {
      WaitingShrinks(s, s', s.services[i], lt, lt);
      if i < s.phase.seen {
        EverythingWaitingIsSelected(c, s, step, i);
      }
    }
  }

  /** The least creation time of a batch is that of one of its services. */
  lemma OldestOfBatch(batch: seq<ServicePolling>)
    ensures forall p :: p in batch ==> Oldest(CreatedTimes(batch)) <= p.service.created
    ensures batch != [] ==> exists p :: p in batch && Oldest(CreatedTimes(batch)) == p.service.created
  {
    var times := CreatedTimes(batch);
    OldestIsLeast(times);
    forall p | p in batch ensures Oldest(times) <= p.service.created {
      var i :| 0 <= i < |batch| && batch[i] == p;
      assert times[i] == p.service.created;
    }
    if batch != [] {
      var i :| 0 <= i < |times| && times[i] == Oldest(times);
      assert batch[i] in batch;
    }
  }

  lemma OldestOfV3Batch(batch: seq<Service>, now: Time)
    requires forall b :: b in batch ==> b.created <= now
    ensures Oldest(V3CreatedTimes(batch)) <= now
  {
    var times := V3CreatedTimes(batch);
    OldestIsLeast(times);
    if batch != [] {
      assert batch[0] in batch && times[0] == batch[0].created;
    }
  }

  lemma OffsetSaveSelection(c: Config, s: State, step: Step)
    requires OffsetInv(c, s) && step.SaveSelection? && Enabled(c, s, step)
    ensures OffsetInv(c, Next(c, s, step))
  {
    var s', batch, seen := Next(c, s, step), s.phase.batch, s.phase.seen;
    var lt := WindowStart(s.now, c.timelimit);
    OldestOfBatch(batch);
    if batch != [] {
      var p :| p in batch && Oldest(CreatedTimes(batch)) == p.service.created;
      assert p.service in s.services[..seen];
    }
    forall i | 0 <= i < |s.services| && Waiting(s', s.services[i], lt)
      ensures Waiting(s, s.services[i], lt)
      ensures Reaches(s'.offset, s.services[i])
    {
      WaitingShrinks(s, s', s.services[i], lt, lt);
      ReachedBySelection(c, s, i);
    }
    forall i | 0 <= i < seen && Waiting(s, s.services[i], lt) ensures batch != [] {
      assert InBatch(batch, s.services[i]);
    }
  }

  lemma ReachedBySelection(c: Config, s: State, i: nat)
    requires OffsetInv(c, s) && s.phase.Selected? && i < |s.services|
    requires Waiting(s, s.services[i], WindowStart(s.now, c.timelimit))
    ensures Oldest(CreatedTimes(s.phase.batch)) <= s.services[i].created
  {
    var batch := s.phase.batch;
    OldestOfBatch(batch);
    if i < s.phase.seen {
      assert InBatch(batch, s.services[i]);
    } else if batch != [] {
      var p :| p in batch && Oldest(CreatedTimes(batch)) == p.service.created;
      var m :| 0 <= m < s.phase.seen && s.services[..s.phase.seen][m] == p.service;
      assert s.services[m].created <= s.services[i].created;
    }
  }

  lemma OffsetSelectV3(c: Config, s: State, step: Step)
    requires OffsetInv(c, s) && step.SelectV3? && Enabled(c, s, step)
    ensures OffsetInv(c, Next(c, s, step))
  {
    var s', batch, seen := Next(c, s, step), step.v3batch, s.phase.seen;
    var lt := WindowStart(s.now, c.timelimit);
    forall i | 0 <= i < |s.services| && Waiting(s', s.services[i], lt)
      ensures Oldest(V3CreatedTimes(batch)) <= s.services[i].created
    {
      var row, over := s.services[i], Overtaken(s, seen, batch);
      if i < seen {
        assert !Waiting(s, row, lt);
        assert Skipped(s, row.uuid);
      } else {
        assert row == s.services[seen..][i - seen];
      }
      assert row.created < Oldest(V3CreatedTimes(batch)) ==> row.uuid in over;
    }
  }

  lemma OffsetSaveV3(c: Config, s: State, step: Step)
    requires OffsetInv(c, s) && step.SaveV3? && Enabled(c, s, step)
    ensures OffsetInv(c, Next(c, s, step))
  {
    var s' := Next(c, s, step);
    var lt := WindowStart(s.now, c.timelimit);
    OldestOfV3Batch(s.phase.v3batch, s.now);
    forall i | 0 <= i < |s.services| && Waiting(s', s.services[i], lt) ensures Waiting(s, s.services[i], lt) {
      WaitingShrinks(s, s', s.services[i], lt, lt);
    }
  }

  lemma OffsetIdle(c: Config, s: State, step: Step)
    requires OffsetInv(c, s) && (step.Abort? || step.Register?) && Enabled(c, s, step)
    ensures OffsetInv(c, Next(c, s, step))
  {
    var s' := Next(c, s, step);
    var lt := WindowStart(s.now, c.timelimit);
    if s.offset != Some(0) {
      forall i | 0 <= i < |s.services| && Waiting(s', s.services[i], lt) ensures Waiting(s, s.services[i], lt) {
        WaitingShrinks(s, s', s.services[i], lt, lt);
      }
    }
  }

  lemma OffsetMessage(c: Config, s: State, step: Step)
    requires OffsetInv(c, s) && Enabled(c, s, step)
    requires step.Tick? || MessageStep(step) || step.Cleanup? || step.Stray?
    ensures OffsetInv(c, Next(c, s, step))
  {
    OffsetFrame(c, s, Next(c, s, step));
  }

  lemma OffsetStep(c: Config, s: State, step: Step)
    requires OffsetInv(c, s) && ShapeOk(c, s) && Enabled(c, s, step) && !step.StrayOffset?
    ensures OffsetInv(c, Next(c, s, step))
  {
    if step.Create? {
      OffsetCreate(c, s, step);
    } else if step.CreateV3? {
      OffsetCreateV3(c, s, step);
    } else if step.ReadServices? {
      OffsetReadServices(c, s, step);
    } else if step.ReadStatuses? {
      OffsetReadStatuses(c, s, step);
    } else if step.SaveSelection? {
      OffsetSaveSelection(c, s, step);
    } else if step.SelectV3? {
      OffsetSelectV3(c, s, step);
    } else if step.SaveV3? {
      OffsetSaveV3(c, s, step);
    } else if step.Abort? || step.Register? {
      OffsetIdle(c, s, step);
    } else {
      OffsetMessage(c, s, step);
    }
  }

  lemma {:induction false} OffsetAlways(c: Config, states: seq<State>, steps: seq<Step>, i: nat)
    requires IsRun(c, states, steps) && NoStrayOffset(steps) && i < |states|
    ensures OffsetInv(c, states[i]) && ShapeOk(c, states[i])
  {
    ShapeAlways(c, states, steps, i);
    if i > 0 {
      OffsetAlways(c, states, steps, i - 1);
      OffsetStep(c, states[i - 1], steps[i - 1]);
    }
  }

  /** No request saves its offset once the agent has given it up. */
  ghost predicate NoStrayOffset(steps: seq<Step>) {
    forall k :: 0 <= k < |steps| ==> !steps[k].StrayOffset?
  }

  lemma {:induction false} ShapeAlways(c: Config, states: seq<State>, steps: seq<Step>, i: nat)
    requires IsRun(c, states, steps) && i < |states|
    ensures ShapeOk(c, states[i])
  {
    if i > 0 {
      ShapeAlways(c, states, steps, i - 1);
      ShapeStep(c, states[i - 1], steps[i - 1]);
    }
  }

  // ---------------------------------------------------------------- every run

  /** What a poll does about a service that waits for it: it selects the service exactly if the offset
      does not hide it and the poll's own cap does not cut it off. */
  lemma PollSelectsIff(c: Config, states: seq<State>, steps: seq<Step>, i: nat, row: ServiceRow)
    requires IsRun(c, states, steps) && i < |steps| && steps[i].ReadStatuses?
    requires states[i].phase.RowsRead? && states[i].phase.seen <= |states[i].services|
    requires row in states[i].services[..states[i].phase.seen]
    requires row.created > states[i].phase.ltime && !Concluded(states[i].log, row.uuid)
    ensures states[i + 1].phase.Selected?
    ensures InBatch(states[i + 1].phase.batch, row) <==>
              && states[i].phase.from <= row.created
              && row.uuid !in BeyondCap(steps[i].polled, c, states[i].phase.ltime)
  {
    ShapeAlways(c, states, steps, i);
    assert states[i + 1] == Next(c, states[i], steps[i]);
    SelectedIff(c, states[i], steps[i], row);
  }

  lemma SelectedIff(c: Config, s: State, step: Step, row: ServiceRow)
    requires TablesOk(c, s) && LogOk(c, s) && step.ReadStatuses? && Enabled(c, s, step)
    requires row in s.services[..s.phase.seen] && row.created > s.phase.ltime && !Concluded(s.log, row.uuid)
    ensures InBatch(Next(c, s, step).phase.batch, row) <==>
              s.phase.from <= row.created && row.uuid !in BeyondCap(step.polled, c, s.phase.ltime)
  {
    var p := ServicePolling(row, Latest(Default(row), s.log));
    var batch := Next(c, s, step).phase.batch;
    PolledFacts(c, s, s.phase.from, s.phase.seen, step.polled);
    LatestIsNewest(Default(row), s.log);
    assert Eligible(p, c.timelimit, s.phase.ltime);
    forall q | q in step.polled && q.service.uuid == row.uuid ensures q == p {
      assert q.service in s.services && row in s.services;
      SameRow(s.services, row, q.service);
    }
    forall q | q in batch ensures q in step.polled {
      SelectionMembers(step.polled, c.pollLimit, c.timelimit, s.phase.ltime, q);
    }
    assert InBatch(batch, row) <==> p in batch;
    assert p in step.polled <==> s.phase.from <= row.created;
  }

  /** So a poll selects every service it has to: one that existed when the request began, lies in the
      poll's window, is not concluded, was not cut off by a cap and was not overtaken. */
  lemma PollMissesNothing(c: Config, states: seq<State>, steps: seq<Step>, i: nat, row: ServiceRow)
    requires IsRun(c, states, steps) && NoStrayOffset(steps) && i < |steps| && steps[i].ReadStatuses?
    requires states[i].phase.RowsRead? && states[i].phase.seen <= |states[i].services|
    requires row in states[i].services[..states[i].phase.seen]
    requires row.created > states[i].phase.ltime
    requires !Concluded(states[i].log, row.uuid) && !Skipped(states[i + 1], row.uuid)
    ensures states[i + 1].phase.Selected? && InBatch(states[i + 1].phase.batch, row)
  {
    OffsetAlways(c, states, steps, i);
    var s := states[i];
    var k :| 0 <= k < s.phase.seen && s.services[..s.phase.seen][k] == row;
    assert states[i + 1] == Next(c, s, steps[i]);
    EverythingWaitingIsSelected(c, s, steps[i], k);
  }

  // ---------------------------------------------------------------- the end of an exception

  /** A request that finds nothing ends every exception: nothing is skipped once its v3 half is empty
      as well, or once it is given up after its v4 half; one with a v3 service leaves only those older
      than all it found. */
  lemma ResetEndsExceptions(c: Config, states: seq<State>, steps: seq<Step>, i: nat, row: ServiceRow)
    requires IsRun(c, states, steps) && i < |steps| && states[i].phase.BetweenHalves?
    requires steps[i].SelectV3? || (steps[i].Abort? && (states[i].offset == Some(0) || NoStrayOffset(steps)))
    requires row in states[i].services && Skipped(states[i + 1], row.uuid)
    ensures steps[i].SelectV3? && forall b :: b in steps[i].v3batch ==> row.created < b.created
    ensures steps[i].SelectV3? && steps[i].v3batch != []
  {
    ShapeAlways(c, states, steps, i);
    if NoStrayOffset(steps) {
      OffsetAlways(c, states, steps, i);
    }
    assert states[i + 1] == Next(c, states[i], steps[i]);
    LeftSkipped(c, states[i], steps[i], row);
  }

  lemma LeftSkipped(c: Config, s: State, step: Step, row: ServiceRow)
    requires TablesOk(c, s) && s.phase.BetweenHalves? && Enabled(c, s, step)
    requires step.SelectV3? || (step.Abort? && s.offset == Some(0))
    requires row in s.services && Skipped(Next(c, s, step), row.uuid)
    ensures step.SelectV3? && step.v3batch != [] && forall b :: b in step.v3batch ==> row.created < b.created
  {
    var times := V3CreatedTimes(step.v3batch);
    var r :| r in s.services && r.created < Oldest(times) && r.uuid == row.uuid;
    SameRow(s.services, row, r);
    OldestIsLeast(times);
    forall b | b in step.v3batch ensures row.created < b.created {
      var i :| 0 <= i < |step.v3batch| && step.v3batch[i] == b;
      assert times[i] == b.created;
    }
  }

  lemma {:induction false} PhaseHeld(c: Config, states: seq<State>, steps: seq<Step>, i: nat, k: nat)
    requires IsRun(c, states, steps) && i <= k < |states| && states[i].phase.RowsRead?
    requires forall m :: i <= m < k ==> !steps[m].ReadStatuses? && !steps[m].Abort?
    ensures states[k].phase == states[i].phase
    decreases k - i
  {
    if i < k {
      PhaseHeld(c, states, steps, i, k - 1);
      assert states[k] == Next(c, states[k - 1], steps[k - 1]);
    }
  }

  /** And the first request after such a reset selects every waiting service, whatever happened to it
      before, unless its own cap cuts the service off. */
  lemma PollAfterResetMissesNothing(c: Config, states: seq<State>, steps: seq<Step>, i: nat, k: nat, row: ServiceRow)
    requires IsRun(c, states, steps) && i < k < |steps|
    requires states[i].offset == Some(0) && steps[i].ReadServices? && steps[k].ReadStatuses?
    requires forall m :: i < m < k ==> !steps[m].ReadStatuses? && !steps[m].Abort?
    requires row in states[i].services && row.created > WindowStart(states[i].now, c.timelimit)
    requires !Concluded(states[k].log, row.uuid)
    ensures states[k + 1].phase.Selected?
    ensures InBatch(states[k + 1].phase.batch, row)
         || row.uuid in BeyondCap(steps[k].polled, c, WindowStart(states[i].now, c.timelimit))
  {
    assert states[i + 1] == Next(c, states[i], steps[i]);
    PhaseHeld(c, states, steps, i + 1, k);
    RowsStay(c, states, steps, i, k);
    var n := |states[i].services|;
    assert states[k].services[..n] == states[i].services;
    PollSelectsIff(c, states, steps, k, row);
  }

  lemma {:induction false} RowsStay(c: Config, states: seq<State>, steps: seq<Step>, i: nat, k: nat)
    requires IsRun(c, states, steps) && i <= k < |states|
    ensures states[i].services <= states[k].services
    decreases k - i
  {
    if i < k {
      RowsStay(c, states, steps, i, k - 1);
      assert states[k] == Next(c, states[k - 1], steps[k - 1]);
    }
  }

  // ---------------------------------------------------------------- the window of a poll, in numbers

  /** Services the database hands out to the request that read its services in `s`. */
  lemma ReadFrom(c: Config, s: State, row: ServiceRow)
    requires s.phase.Idle?
    ensures var from, cut := Next(c, s, ReadServices).phase.from, s.now / 1_000_000 * 1_000_000;
      from <= row.created <==>
        cut <= row.created + 60_000_000 * c.timelimit && (s.offset.Some? ==> s.offset.value <= row.created)
    ensures Next(c, s, ReadServices).phase.ltime < row.created <==>
              s.now / 1_000_000 * 1_000_000 < row.created + 60_000_000 * c.timelimit
  {
  }

  /** A request that read its services at time `now` hands out an unfinished service exactly if the saved offset
      is no later than the service and the service is younger than the limit in minutes, counted from the second
      that `now` is in; except that a full poll may leave it out. Without a limit, as young is enough. */
  lemma PollWindow(c: Config, states: seq<State>, steps: seq<Step>, i: nat, k: nat, row: ServiceRow)
    requires IsRun(c, states, steps) && i < k < |steps| && steps[i].ReadServices? && steps[k].ReadStatuses?
    requires forall m :: i < m < k ==> !steps[m].ReadStatuses? && !steps[m].Abort?
    requires row in states[i].services
    requires forall r :: r in states[k].log && r.uuid == row.uuid ==> r.status != Succeeded && r.status != ManagerFailed
    ensures states[k + 1].phase.Selected?
    ensures var now, batch := states[i].now, states[k + 1].phase.batch;
      var cut, end := now / 1_000_000 * 1_000_000, row.created + 60_000_000 * c.timelimit;
      var due := (if c.timelimit > 0 then cut < end else cut <= end)
                 && (states[i].offset.Some? ==> states[i].offset.value <= row.created);
      && ((exists p :: p in batch && p.service == row) ==> due)
      && (due && |batch| < (if c.pollLimit == 0 then 128 else c.pollLimit + 1) ==>
            exists p :: p in batch && p.service == row)
  {
    ShapeAlways(c, states, steps, k);
    assert states[i + 1] == Next(c, states[i], steps[i]);
    PhaseHeld(c, states, steps, i + 1, k);
    RowsStay(c, states, steps, i, k);
    assert states[k].services[..|states[i].services|] == states[i].services;
    ReadFrom(c, states[i], row);
    assert states[k + 1] == Next(c, states[k], steps[k]);
    HandsOut(c, states[k], steps[k], row);
  }

  /** What one poll selects, in numbers. */
  lemma HandsOut(c: Config, s: State, step: Step, row: ServiceRow)
    requires TablesOk(c, s) && LogOk(c, s) && step.ReadStatuses? && Enabled(c, s, step)
    requires row in s.services[..s.phase.seen]
    requires forall r :: r in s.log && r.uuid == row.uuid ==> r.status != Succeeded && r.status != ManagerFailed
    ensures var batch := Next(c, s, step).phase.batch;
      var due := s.phase.from <= row.created && (c.timelimit > 0 ==> s.phase.ltime < row.created);
      && (InBatch(batch, row) ==> due)
      && (due && |batch| < (if c.pollLimit == 0 then 128 else c.pollLimit + 1) ==> InBatch(batch, row))
  {
    var batch, p := Next(c, s, step).phase.batch, ServicePolling(row, Latest(Default(row), s.log));
    PolledFacts(c, s, s.phase.from, s.phase.seen, step.polled);
    LatestIsNewest(Default(row), s.log);
    SelectionIs(step.polled, c.pollLimit, c.timelimit, s.phase.ltime, p);
    forall q | q in batch && q.service == row ensures q == p && q in step.polled {
      SelectionMembers(step.polled, c.pollLimit, c.timelimit, s.phase.ltime, q);
      SameRow(s.services, row, q.service);
    }
    assert p in step.polled <==> s.phase.from <= row.created;
  }

  /** So with a limit a service is handed out, if the offset allows it and the poll is not full, for `timelimit`
      minutes, and no longer than a second more. */
  lemma PollWindowInMinutes(c: Config, states: seq<State>, steps: seq<Step>, i: nat, k: nat, row: ServiceRow)
    requires IsRun(c, states, steps) && i < k < |steps| && steps[i].ReadServices? && steps[k].ReadStatuses?
    requires forall m :: i < m < k ==> !steps[m].ReadStatuses? && !steps[m].Abort?
    requires row in states[i].services && c.timelimit > 0
    requires forall r :: r in states[k].log && r.uuid == row.uuid ==> r.status != Succeeded && r.status != ManagerFailed
    requires states[i].offset.Some? ==> states[i].offset.value <= row.created
    ensures states[k + 1].phase.Selected?
    ensures row.created + 60_000_000 * c.timelimit > states[i].now
            && |states[k + 1].phase.batch| < (if c.pollLimit == 0 then 128 else c.pollLimit + 1) ==>
              exists p :: p in states[k + 1].phase.batch && p.service == row
    ensures row.created + 60_000_000 * c.timelimit + 1_000_000 <= states[i].now ==>
              !exists p :: p in states[k + 1].phase.batch && p.service == row
  {
    PollWindow(c, states, steps, i, k, row);
  }

  /** The v3 half only ever runs after an empty v4 half, so its offset condition cuts nothing off
      the validity window. */
  lemma V3UsesWholeWindow(c: Config, states: seq<State>, steps: seq<Step>, i: nat, created: Time)
    requires IsRun(c, states, steps) && NoStrayOffset(steps) && i < |states| && states[i].phase.BetweenHalves?
    ensures var ltime := WindowStart(states[i].now, c.timelimit);
      created > ltime ==> created >= EffectiveOffset(states[i].offset, ltime)
  {
    OffsetAlways(c, states, steps, i);
  }
}
