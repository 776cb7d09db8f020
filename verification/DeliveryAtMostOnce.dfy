/** No v4 service gets a second executor unless its history is one of the three exceptions. */
module DeliveryAtMostOnce {
  import opened ServiceModel
  import opened Scheduling
  import opened PollVault
  import opened Delivery
  import opened DeliverySlots
  import opened DeliveryOnce
  import opened DeliveryReports

  ghost predicate Ran(execs: seq<Exec>, id: Uuid) {
    exists k :: 0 <= k < |execs| && execs[k].id == id
  }

  ghost predicate AtMostOne(execs: seq<Exec>, id: Uuid) {
    forall i, k :: 0 <= i < k < |execs| && execs[i].id == id ==> execs[k].id != id
  }

  /** A service that has run is either still in the map, or finished for the manager too and in no
      pending batch; and the map never calls a service finished before the manager does. */
  ghost predicate Once(s: State, id: Uuid) {
    && AtMostOne(s.execs, id)
    && (Ran(s.execs, id) ==> id in s.statuses || (Concluded(s.log, id) && id !in Pending(s.phase)))
    && (id in s.statuses && Terminal(s.statuses[id]) ==> Concluded(s.log, id))
  }

  ghost predicate OnceInv(s: State) {
    forall id :: HasRow(s, id) && !Excused(s, id) ==> Once(s, id)
  }

  ghost predicate SameIds(a: seq<Exec>, b: seq<Exec>) {
    |a| == |b| && forall k :: 0 <= k < |a| ==> a[k].id == b[k].id
  }

  // ---------------------------------------------------------------- exceptions are for ever

  lemma RegressedForever(log: seq<StatusRow>, log': seq<StatusRow>, id: Uuid)
    requires Regressed(log, id) && log <= log'
    ensures Regressed(log', id)
  {
    var a, b :| a in log && b in log && a.uuid == id && Supersedes(b, a);
    assert a in log' && b in log';
  }

  lemma ConcludedForever(log: seq<StatusRow>, log': seq<StatusRow>, id: Uuid)
    requires Concluded(log, id) && log <= log'
    ensures Concluded(log', id)
  {
    var r :| r in log && r.uuid == id && !Unfinished(r.status);
    assert r in log';
  }

  /** Once marked, a message stays marked. */
  lemma MarkedStays(c: Config, s: State, step: Step, k: nat, j: nat)
    requires Enabled(c, s, step) && k < |s.execs| && MarkedFirstAt(s.execs[k], j)
    ensures var s' := Next(c, s, step);
      k < |s'.execs| && s'.execs[k].id == s.execs[k].id && MarkedFirstAt(s'.execs[k], j)
  {
  }

  lemma ExcusedForever(c: Config, s: State, step: Step, id: Uuid)
    requires Enabled(c, s, step) && Excused(s, id)
    ensures Excused(Next(c, s, step), id)
  {
    var s' := Next(c, s, step);
    if Regressed(s.log, id) {
      RegressedForever(s.log, s'.log, id);
    } else if id !in s.forgotten {
      var k, j :| 0 <= k < |s.execs| && s.execs[k].id == id && MarkedFirstAt(s.execs[k], j);
      MarkedStays(c, s, step, k, j);
    }
  }

  // ---------------------------------------------------------------- what a poll can see

  /** Without regression, a concluded service has a finished latest record, so no poll selects it. */
  lemma LatestStaysFinished(c: Config, s: State, row: ServiceRow)
    requires TablesOk(c, s) && LogOk(c, s) && row in s.services
    requires Concluded(s.log, row.uuid) && !Regressed(s.log, row.uuid)
    ensures !Unfinished(Latest(Default(row), s.log).status)
    ensures Latest(Default(row), s.log) in s.log
  {
    var a :| a in s.log && a.uuid == row.uuid && !Unfinished(a.status);
    assert Dated(c, s.services, a);
    var dated :| dated in s.services && dated.uuid == a.uuid && dated.created < a.created;
    SameRow(s.services, row, dated);
    var l := Latest(Default(row), s.log);
    LatestIsNewest(Default(row), s.log);
    assert l != Default(row);
    assert Unfinished(l.status) ==> Supersedes(l, a);
  }

  lemma OnceReadStatuses(c: Config, s: State, step: Step, id: Uuid)
    requires ShapeOk(c, s) && step.ReadStatuses? && Enabled(c, s, step)
    requires Once(s, id) && !Regressed(s.log, id)
    ensures Once(Next(c, s, step), id)
  {
    var s' := Next(c, s, step);
    if Ran(s.execs, id) && id !in s.statuses && id in Pending(s'.phase) {
      var p :| p in s'.phase.batch && p.service.uuid == id;
      SelectionMembers(step.polled, c.pollLimit, c.timelimit, s.phase.ltime, p);
      PolledFacts(c, s, s.phase.from, s.phase.seen, step.polled);
      assert p.service in s.services;
      LatestStaysFinished(c, s, p.service);
    }
  }

  // ---------------------------------------------------------------- frames

  /** Nothing relevant to `id` changes, except that the log may grow and a batch may go away. */
  lemma OnceFrame(s: State, s': State, id: Uuid)
    requires Once(s, id)
    requires SameIds(s.execs, s'.execs) && s'.statuses == s.statuses && s.log <= s'.log
    requires id in Pending(s'.phase) ==> id in Pending(s.phase)
    ensures Once(s', id)
  {
    if Ran(s'.execs, id) {
      var k :| 0 <= k < |s'.execs| && s'.execs[k].id == id;
      assert s.execs[k].id == id;
    }
    if Concluded(s.log, id) {
      ConcludedForever(s.log, s'.log, id);
    }
  }

  lemma OnceApply(c: Config, s: State, step: Step, id: Uuid)
    requires ShapeOk(c, s) && ReportsOk(s) && step.Apply? && Enabled(c, s, step)
    requires HasRow(s, id) && Once(s, id) && !MarkedFirst(Next(c, s, step).execs, id)
    ensures Once(Next(c, s, step), id)
  {
    var s', e, j := Next(c, s, step), s.execs[step.k], step.j;
    var u := e.trace[j];
    assert TraceOk(e) && EndsAt(e, j);
    assert SameIds(s.execs, s'.execs);
    OnceFrame(s, s.(execs := s'.execs), id);
    if e.id == id && Terminal(LocalStatus(u)) {
      assert Sourced(s, e.id, e.version);
      assert e.version == V2;
      if e.stages[j] == Committed {
        assert Handled(e, j) && RecordedAt(s.log, e, j);
        var r :| r in s.log && r.uuid == id && r.status == ReportedStatus(u);
        assert Concluded(s.log, id);
      } else {
        assert MarkedFirstAt(s'.execs[step.k], j);
      }
    }
  }

  lemma OnceRegister(c: Config, s: State, step: Step, id: Uuid)
    requires ShapeOk(c, s) && step.Register? && Enabled(c, s, step)
    requires Once(s, id)
    ensures Once(Next(c, s, step), id)
  {
    var s' := Next(c, s, step);
    var started := NewExecs(step.launched, step.traces);
    forall i | 0 <= i < |started| ensures started[i].id in Pending(s.phase) && started[i].id !in s.statuses
      ensures started[i].id in Ids(step.launched)
    {
      LaunchedSourced(c, s, step, i);
      assert step.launched[i] in step.launched;
    }
    OnceJoined(s, started, s', id, Ids(step.launched));
  }

  /** Executors join only for services that are pending and unknown to the map, one each. */
  lemma OnceJoined(s: State, started: seq<Exec>, s': State, id: Uuid, ids: set<Uuid>)
    requires Once(s, id)
    requires s'.execs == s.execs + started && s'.log == s.log && s'.phase == Idle
    requires forall i :: 0 <= i < |started| ==>
               started[i].id in Pending(s.phase) && started[i].id !in s.statuses && started[i].id in ids
    requires forall i, k :: 0 <= i < k < |started| ==> started[i].id != started[k].id
    requires forall k :: k in ids ==> k !in Kept(s.statuses)
    requires s'.statuses == Kept(s.statuses) + map k | k in ids :: Preparing
    ensures Once(s', id)
  {
    forall i, k | 0 <= i < k < |s'.execs| && s'.execs[i].id == id ensures s'.execs[k].id != id {
      var n := |s.execs|;
      if k >= n {
        assert s'.execs[k] == started[k - n];
        if i >= n {
          assert s'.execs[i] == started[i - n];
        } else {
          assert s.execs[i].id == id;
          assert Ran(s.execs, id);
        }
      }
    }
    forall k | |s.execs| <= k < |s'.execs| ensures s'.execs[k].id in s'.statuses {
      assert s'.execs[k] == started[k - |s.execs|];
    }
    if Ran(s'.execs, id) && id !in s'.statuses {
      var k :| 0 <= k < |s'.execs| && s'.execs[k].id == id;
      assert s.execs[k].id == id;
    }
  }

  lemma OnceCleanup(c: Config, s: State, step: Step, id: Uuid)
    requires step.Cleanup? && Enabled(c, s, step)
    requires Once(s, id) && id !in Next(c, s, step).forgotten
    ensures Once(Next(c, s, step), id)
  {
  }

  lemma RanHasRow(s: State, id: Uuid)
    requires ExecsOk(s)
    ensures Ran(s.execs, id) ==> HasRow(s, id) || HasV3Row(s, id)
  {
    if Ran(s.execs, id) {
      var k :| 0 <= k < |s.execs| && s.execs[k].id == id;
      assert Sourced(s, id, s.execs[k].version);
    }
  }

  lemma EntryRan(s: State, id: Uuid)
    requires AllOwned(s.statuses, s.execs)
    ensures id in s.statuses ==> Ran(s.execs, id)
  {
    if id in s.statuses {
      assert Owned(id, s.statuses[id], s.execs);
    }
  }

  lemma V3BatchHasV3Row(c: Config, s: State, id: Uuid)
    requires PhaseOk(c, s) && s.phase.V3Selected?
    ensures id in V3Batch(s.phase.v3batch) ==> HasV3Row(s, id)
  {
    if id in V3Batch(s.phase.v3batch) {
      V3BatchKeys(s.phase.v3batch, id);
      var b :| b in s.phase.v3batch && b.id == id;
      assert b in s.v3services;
    }
  }

  lemma OnceCreate(c: Config, s: State, step: Step, id: Uuid)
    requires ShapeOk(c, s) && AllOwned(s.statuses, s.execs) && step.Create? && Enabled(c, s, step)
    requires !HasRow(s, id) && id == step.row.uuid
    ensures Once(Next(c, s, step), id)
  {
    RanHasRow(s, id);
    EntryRan(s, id);
  }

  /** Steps that only turn pages: the pending batch shrinks, or comes from the v3 tables. */
  lemma OnceTurn(c: Config, s: State, step: Step, id: Uuid)
    requires ShapeOk(c, s) && Enabled(c, s, step) && HasRow(s, id) && Once(s, id)
    requires step.Create? || step.CreateV3? || step.Tick? || step.ReadServices? || step.SaveSelection?
          || step.SelectV3? || step.SaveV3? || step.Abort? || (MessageStep(step) && !step.Apply?)
          || step.Stray? || step.StrayOffset?
    ensures Once(Next(c, s, step), id)
  {
    var s' := Next(c, s, step);
    if step.SaveSelection? {
      PolledBatchKeys(s.phase.batch, id);
    } else if step.SaveV3? {
      V3BatchHasV3Row(c, s, id);
    }
    OnceFrame(s, s', id);
  }

  lemma OnceStep(c: Config, s: State, step: Step)
    requires ShapeOk(c, s) && ReportsOk(s) && AllOwned(s.statuses, s.execs) && OnceInv(s)
    requires Enabled(c, s, step)
    ensures OnceInv(Next(c, s, step))
  {
    var s' := Next(c, s, step);
    forall id | HasRow(s', id) && !Excused(s', id) ensures Once(s', id) {
      if Excused(s, id) {
        ExcusedForever(c, s, step, id);
      }
      if !HasRow(s, id) {
        NewRow(c, s, step, id);
        OnceCreate(c, s, step, id);
      } else {
        assert Once(s, id);
        if step.ReadStatuses? {
          OnceReadStatuses(c, s, step, id);
        } else if step.Register? {
          OnceRegister(c, s, step, id);
        } else if step.Apply? {
          OnceApply(c, s, step, id);
        } else if step.Cleanup? {
          OnceCleanup(c, s, step, id);
        } else {
          OnceTurn(c, s, step, id);
        }
      }
    }
  }

  lemma NewRow(c: Config, s: State, step: Step, id: Uuid)
    requires Enabled(c, s, step) && HasRow(Next(c, s, step), id) && !HasRow(s, id)
    ensures step.Create? && id == step.row.uuid
  {
    var r :| r in Next(c, s, step).services && r.uuid == id;
    assert r !in s.services;
  }

  // ---------------------------------------------------------------- every run

  ghost predicate Inv(c: Config, s: State) {
    && ShapeOk(c, s) && ReportsOk(s) && OnceInv(s)
    && SlotInv(c, s.statuses, s.execs) && LegalTraces(s.execs)
  }

  lemma InvInitial(c: Config, s: State)
    requires Initial(s)
    ensures Inv(c, s)
  {
  }

  lemma InvStep(c: Config, s: State, step: Step)
    requires Inv(c, s) && Enabled(c, s, step)
    ensures Inv(c, Next(c, s, step))
  {
    assert ShapeOk(c, Next(c, s, step)) by { ShapeStep(c, s, step); }
    assert ReportsOk(Next(c, s, step)) by { ReportsStep(c, s, step); }
    assert OnceInv(Next(c, s, step)) by { OnceStep(c, s, step); }
    SlotsStep(c, s, step);
    TracesStep(c, s, step);
  }

  lemma {:induction false} AlwaysInv(c: Config, states: seq<State>, steps: seq<Step>, i: nat)
    requires IsRun(c, states, steps) && i < |states|
    ensures Inv(c, states[i])
  {
    if i == 0 {
      InvInitial(c, states[0]);
    } else {
      AlwaysInv(c, states, steps, i - 1);
      InvStep(c, states[i - 1], steps[i - 1]);
    }
  }

  lemma OnceFromInv(c: Config, s: State, id: Uuid)
    requires Inv(c, s) && HasRow(s, id) && !Excused(s, id)
    ensures Once(s, id)
  {
  }

  /** Whatever the interleaving, a v4 service with two executors has a history in which an
      unfinished record overtook its finished one, or a cleanup dropped its entry under a pending
      batch, or the agent marked its last message before the manager had recorded it. */
  lemma AtMostOnce(c: Config, states: seq<State>, steps: seq<Step>, i: nat, a: nat, b: nat)
    requires IsRun(c, states, steps) && i < |states|
    requires a < b < |states[i].execs| && states[i].execs[a].id == states[i].execs[b].id
    requires HasRow(states[i], states[i].execs[a].id)
    ensures Excused(states[i], states[i].execs[a].id)
  {
    AlwaysInv(c, states, steps, i);
    ExcusedIfTwice(c, states[i], a, b);
  }

  lemma ExcusedIfTwice(c: Config, s: State, a: nat, b: nat)
    requires Inv(c, s) && a < b < |s.execs| && s.execs[a].id == s.execs[b].id && HasRow(s, s.execs[a].id)
    ensures Excused(s, s.execs[a].id)
  {
    var id := s.execs[a].id;
    assert !Excused(s, id) ==> Once(s, id);
    assert !AtMostOne(s.execs, id);
  }

  /** Outside the exceptions the manager's latest record of a service the agent calls finished is
      finished with the same verdict. */
  lemma ManagerAgrees(c: Config, states: seq<State>, steps: seq<Step>, i: nat, row: ServiceRow)
    requires IsRun(c, states, steps) && i < |states|
    requires row in states[i].services && !Excused(states[i], row.uuid)
    requires row.uuid in states[i].statuses && Terminal(states[i].statuses[row.uuid])
    ensures var l := Latest(Default(row), states[i].log).status;
      && (l == Succeeded <==> states[i].statuses[row.uuid] == Success)
      && (l == ManagerFailed <==> states[i].statuses[row.uuid] == Failed)
  {
    AlwaysInv(c, states, steps, i);
    VerdictsAgree(c, states[i], row);
  }

  lemma VerdictsAgree(c: Config, s: State, row: ServiceRow)
    requires Inv(c, s) && row in s.services && !Excused(s, row.uuid)
    requires row.uuid in s.statuses && Terminal(s.statuses[row.uuid])
    ensures var l := Latest(Default(row), s.log).status;
      && (l == Succeeded <==> s.statuses[row.uuid] == Success)
      && (l == ManagerFailed <==> s.statuses[row.uuid] == Failed)
  {
    OnceFromInv(c, s, row.uuid);
    LatestStaysFinished(c, s, row);
    SoleVerdict(s.execs, s.statuses, Latest(Default(row), s.log));
  }

  /** With a single executor, a finished record and a finished entry have the same source. */
  lemma SoleVerdict(execs: seq<Exec>, statuses: Statuses, l: StatusRow)
    requires AtMostOne(execs, l.uuid) && Reported(execs, l) && !Unfinished(l.status)
    requires l.uuid in statuses && Terminal(statuses[l.uuid]) && Owned(l.uuid, statuses[l.uuid], execs)
    requires forall k :: 0 <= k < |execs| ==> TraceOk(execs[k])
    ensures (l.status == Succeeded <==> statuses[l.uuid] == Success)
    ensures (l.status == ManagerFailed <==> statuses[l.uuid] == Failed)
  {
    var k :| 0 <= k < |execs| && Caused(execs[k], l);
    var m :| 0 <= m < |execs| && Owns(execs[m], l.uuid, statuses[l.uuid]);
    assert k == m;
    assert TraceOk(execs[k]) && EndsAt(execs[k], |execs[k].trace| - 1);
  }
}
