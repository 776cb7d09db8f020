/** At most one executor per v4 service, over every run. The code gives that guarantee except when a
    finished service looks unfinished to a later poll, and there are three ways to get there; each is
    a condition on the history, and DeliveryWitness reaches each of them on its own. */
module DeliveryOnce {
  import opened Wrappers
  import opened ServiceModel
  import opened Scheduling
  import opened PollVault
  import opened Delivery

  // ---------------------------------------------------------------- the three exceptions

  /** The manager has a finished record of the service. */
  ghost predicate Concluded(log: seq<StatusRow>, id: Uuid) {
    exists r :: r in log && r.uuid == id && !Unfinished(r.status)
  }

  ghost predicate Supersedes(b: StatusRow, a: StatusRow) {
    a.uuid == b.uuid && !Unfinished(a.status) && Unfinished(b.status) && b.created >= a.created
  }

  /** An unfinished record is dated no earlier than a finished one: messages were handled out of order. */
  ghost predicate Regressed(log: seq<StatusRow>, id: Uuid) {
    exists a, b :: a in log && b in log && a.uuid == id && Supersedes(b, a)
  }

  predicate MarkedFirstAt(e: Exec, j: nat) {
    && j < |e.stages| && j < |e.trace|
    && (e.stages[j] == Applied(Missing) || e.stages[j] == Applied(Late))
    && Terminal(LocalStatus(e.trace[j]))
  }

  /** The agent marked the last message of an executor of the service before the manager had recorded
      it: the message was lost, or its record came late. */
  ghost predicate MarkedFirst(execs: seq<Exec>, id: Uuid) {
    exists k, j :: 0 <= k < |execs| && execs[k].id == id && MarkedFirstAt(execs[k], j)
  }

  ghost predicate Excused(s: State, id: Uuid) {
    Regressed(s.log, id) || id in s.forgotten || MarkedFirst(s.execs, id)
  }

  // ---------------------------------------------------------------- what always holds

  predicate RowOk(c: Config, row: ServiceRow) {
    row.cluster == c.cluster
  }

  ghost predicate Dated(c: Config, services: seq<ServiceRow>, r: StatusRow) {
    r.cluster == c.cluster && exists row :: row in services && row.uuid == r.uuid && row.created < r.created
  }

  ghost predicate PolledOk(c: Config, services: seq<ServiceRow>, p: ServicePolling) {
    p.service in services && p.lastStatus.uuid == p.service.uuid && p.lastStatus.cluster == c.cluster
  }

  /** A V2 service is a v4 row, a V1 service a v3 row. */
  ghost predicate Sourced(s: State, id: Uuid, version: Version) {
    match version
    case V2 => HasRow(s, id)
    case V1 => HasV3Row(s, id)
  }

  ghost predicate TablesOk(c: Config, s: State) {
    && DistinctRows(s.services)
    && (forall row :: row in s.services ==> RowOk(c, row))
    && (forall v :: v in s.v3services ==> v.version == V1)
    && (forall id :: HasRow(s, id) ==> !HasV3Row(s, id))
  }

  ghost predicate LogOk(c: Config, s: State) {
    forall r :: r in s.log ==> Dated(c, s.services, r)
  }

  ghost predicate PhaseOk(c: Config, s: State) {
    match s.phase
    case Selected(batch, _) => forall p :: p in batch ==> PolledOk(c, s.services, p)
    case V3Selected(batch) => forall b :: b in batch ==> b in s.v3services
    case Answered(services) =>
      forall k :: k in services ==> services[k].id == k && Sourced(s, k, services[k].version)
    case _ => true
  }

  ghost predicate ExecsOk(s: State) {
    forall k :: 0 <= k < |s.execs| ==> Sourced(s, s.execs[k].id, s.execs[k].version)
  }

  ghost predicate ShapeOk(c: Config, s: State) {
    TablesOk(c, s) && LogOk(c, s) && PhaseOk(c, s) && ExecsOk(s)
  }

  // ---------------------------------------------------------------- shape, step by step

  lemma GrownSourced(s: State, s': State, id: Uuid, version: Version)
    requires Sourced(s, id, version)
    requires s.services <= s'.services && s.v3services <= s'.v3services
    ensures Sourced(s', id, version)
  {
    match version
    case V2 =>
      var r :| r in s.services && r.uuid == id;
      assert r in s'.services;
    case V1 =>
      var r :| r in s.v3services && r.id == id;
      assert r in s'.v3services;
  }

  /** New rows leave every old fact in place. */
  lemma GrownShape(c: Config, s: State, s': State)
    requires LogOk(c, s) && PhaseOk(c, s) && ExecsOk(s)
    requires s.services <= s'.services && s.v3services <= s'.v3services
    requires s'.log == s.log && s'.phase == s.phase && s'.execs == s.execs
    ensures LogOk(c, s') && PhaseOk(c, s') && ExecsOk(s')
  {
    forall r | r in s'.log ensures Dated(c, s'.services, r) {
      assert Dated(c, s.services, r);
      var row :| row in s.services && row.uuid == r.uuid && row.created < r.created;
      assert row in s'.services;
    }
    forall k | 0 <= k < |s'.execs| ensures Sourced(s', s'.execs[k].id, s'.execs[k].version) {
      GrownSourced(s, s', s.execs[k].id, s.execs[k].version);
    }
    if s.phase.Answered? {
      forall k | k in s.phase.services ensures Sourced(s', k, s.phase.services[k].version) {
        GrownSourced(s, s', k, s.phase.services[k].version);
      }
    }
  }

  lemma ShapeCreate(c: Config, s: State, step: Step)
    requires ShapeOk(c, s) && (step.Create? || step.CreateV3?) && Enabled(c, s, step)
    ensures ShapeOk(c, Next(c, s, step))
  {
    var s' := Next(c, s, step);
    GrownShape(c, s, s');
    forall id | HasRow(s', id) ensures !HasV3Row(s', id) {
      if step.Create? && id == step.row.uuid {
        assert s'.v3services == s.v3services;
      } else if step.Create? {
        var r :| r in s'.services && r.uuid == id;
        assert r in s.services;
        assert HasRow(s, id);
      } else {
        assert HasRow(s, id);
      }
    }
    if step.Create? {
      forall i | 0 <= i < |s.services| ensures s.services[i].uuid != step.row.uuid {
        assert s.services[i] in s.services;
      }
    }
  }

  /** What a poll sees of one of its services. */
  lemma PolledFacts(c: Config, s: State, from: int, seen: nat, polled: seq<ServicePolling>)
    requires TablesOk(c, s) && LogOk(c, s) && seen <= |s.services|
    requires IsPolling(QueryServices(s.services[..seen], c.cluster, Some(from)),
                       QueryStatuses(s.log, c.cluster, Some(from)), polled)
    ensures forall p :: p in polled <==>
              && p.service in s.services[..seen] && p.service.created >= from
              && p.lastStatus == Latest(Default(p.service), s.log)
  {
    var table := s.services[..seen];
    forall row, r | row in table && r in s.log && r.uuid == row.uuid
      ensures r.cluster == row.cluster && r.created >= row.created
    {
      assert Dated(c, s.services, r);
      var dated :| dated in s.services && dated.uuid == r.uuid && dated.created < r.created;
      assert row in s.services;
      SameRow(s.services, row, dated);
      assert RowOk(c, row);
    }
    PollingSeesFullLog(table, s.log, c.cluster, Some(from), polled);
    PollingMembers(QueryServices(table, c.cluster, Some(from)), s.log, polled);
    forall p: ServicePolling
      ensures p.service in QueryServices(table, c.cluster, Some(from)) <==>
              p.service in table && p.service.created >= from
    {
      QueryServicesIn(table, c.cluster, Some(from), p.service);
      if p.service in table {
        assert p.service in s.services;
        assert RowOk(c, p.service);
      }
    }
  }

  lemma SameRow(services: seq<ServiceRow>, a: ServiceRow, b: ServiceRow)
    requires DistinctRows(services) && a in services && b in services && a.uuid == b.uuid
    ensures a == b
  {
    var i :| 0 <= i < |services| && services[i] == a;
    var k :| 0 <= k < |services| && services[k] == b;
  }

  lemma ShapeReadStatuses(c: Config, s: State, step: Step)
    requires ShapeOk(c, s) && step.ReadStatuses? && Enabled(c, s, step)
    ensures ShapeOk(c, Next(c, s, step))
  {
    var s' := Next(c, s, step);
    SameTables(s, s');
    PolledFacts(c, s, s.phase.from, s.phase.seen, step.polled);
    forall p | p in s'.phase.batch ensures PolledOk(c, s'.services, p) {
      SelectionMembers(step.polled, c.pollLimit, c.timelimit, s.phase.ltime, p);
      assert p.service in s.services;
      LatestIsNewest(Default(p.service), s.log);
      if p.lastStatus != Default(p.service) {
        assert Dated(c, s.services, p.lastStatus);
      }
      assert RowOk(c, p.service);
    }
  }

  lemma {:induction false} SentRecordsFrom(batch: seq<ServicePolling>, t: Time, r: StatusRow)
    requires r in SentRecords(batch, t)
    ensures exists p :: p in batch && r == p.lastStatus.(status := Sent, created := t)
  {
    var n := |batch| - 1;
    if r in SentRecords(batch[..n], t) {
      SentRecordsFrom(batch[..n], t, r);
      var p :| p in batch[..n] && r == p.lastStatus.(status := Sent, created := t);
      assert p in batch;
    } else {
      assert batch[n] in batch;
    }
  }

  lemma {:induction false} PolledBatchKeys(batch: seq<ServicePolling>, k: Uuid)
    ensures k in PolledBatch(batch) <==> k in PolledIds(batch)
    ensures k in PolledBatch(batch) ==>
              exists p :: p in batch && p.service.uuid == k && PolledBatch(batch)[k] == AsService(p.service)
  {
    if batch != [] {
      var n := |batch| - 1;
      var init := batch[..n];
      PolledBatchKeys(init, k);
      assert batch == init + [batch[n]];
      assert batch[n] in batch;
      assert PolledIds(batch) == PolledIds(init) + {batch[n].service.uuid};
      if k in PolledBatch(init) && k != batch[n].service.uuid {
        var p :| p in init && p.service.uuid == k && PolledBatch(init)[k] == AsService(p.service);
        assert p in batch;
      }
    }
  }

  lemma {:induction false} V3BatchKeys(batch: seq<Service>, k: Uuid)
    requires k in V3Batch(batch)
    ensures exists b :: b in batch && b.id == k && V3Batch(batch)[k] == b
  {
    var n := |batch| - 1;
    if k == batch[n].id {
      assert batch[n] in batch;
    } else {
      V3BatchKeys(batch[..n], k);
      var b :| b in batch[..n] && b.id == k && V3Batch(batch[..n])[k] == b;
      assert b in batch;
    }
  }

  lemma ShapeSaveSelection(c: Config, s: State, step: Step)
    requires ShapeOk(c, s) && step.SaveSelection? && Enabled(c, s, step)
    ensures ShapeOk(c, Next(c, s, step))
  {
    var s' := Next(c, s, step);
    var batch := s.phase.batch;
    SameTables(s, s');
    forall r | r in s'.log ensures Dated(c, s'.services, r) {
      if r in s.log {
        assert Dated(c, s.services, r);
      } else {
        SentRecordsFrom(batch, step.t, r);
        var p :| p in batch && r == p.lastStatus.(status := Sent, created := step.t);
        assert PolledOk(c, s.services, p);
        assert p.service.created < step.t;
      }
    }
    forall k | k in PolledBatch(batch)
      ensures PolledBatch(batch)[k].id == k && Sourced(s', k, PolledBatch(batch)[k].version)
    {
      PolledBatchKeys(batch, k);
      var p :| p in batch && p.service.uuid == k && PolledBatch(batch)[k] == AsService(p.service);
      assert PolledOk(c, s.services, p);
    }
  }

  lemma ShapeSaveV3(c: Config, s: State, step: Step)
    requires ShapeOk(c, s) && step.SaveV3? && Enabled(c, s, step)
    ensures ShapeOk(c, Next(c, s, step))
  {
    var s' := Next(c, s, step);
    var batch := s.phase.v3batch;
    forall k | k in V3Batch(batch) ensures V3Batch(batch)[k].id == k && Sourced(s', k, V3Batch(batch)[k].version) {
      V3BatchKeys(batch, k);
      var b :| b in batch && b.id == k && V3Batch(batch)[k] == b;
      assert b in s.v3services;
    }
    SameTables(s, s');
  }

  lemma SameTables(s: State, s': State)
    requires s'.services == s.services && s'.v3services == s.v3services
    ensures forall id :: HasRow(s', id) == HasRow(s, id) && HasV3Row(s', id) == HasV3Row(s, id)
    ensures forall id, v :: Sourced(s', id, v) == Sourced(s, id, v)
  {
  }

  lemma LaunchedSourced(c: Config, s: State, step: Step, i: nat)
    requires PhaseOk(c, s) && step.Register? && Enabled(c, s, step) && i < |step.launched|
    ensures Sourced(s, step.launched[i].id, step.launched[i].version)
    ensures step.launched[i].id in Pending(s.phase) && step.launched[i].id !in s.statuses
  {
    var l := step.launched[i];
    assert l in step.launched;
    assert l.id in Unknown(s.statuses, step.received) && step.received[l.id] == l;
    assert s.phase.services[l.id] == l;
  }

  lemma ShapeRegister(c: Config, s: State, step: Step)
    requires ShapeOk(c, s) && step.Register? && Enabled(c, s, step)
    ensures ShapeOk(c, Next(c, s, step))
  {
    var s' := Next(c, s, step);
    var started := NewExecs(step.launched, step.traces);
    SameTables(s, s');
    forall i | 0 <= i < |started| ensures Sourced(s, started[i].id, started[i].version) {
      LaunchedSourced(c, s, step, i);
    }
    ExecsJoined(s, started, s');
  }

  lemma ExecsJoined(s: State, started: seq<Exec>, s': State)
    requires ExecsOk(s) && s'.execs == s.execs + started
    requires s'.services == s.services && s'.v3services == s.v3services
    requires forall i :: 0 <= i < |started| ==> Sourced(s, started[i].id, started[i].version)
    ensures ExecsOk(s')
  {
    SameTables(s, s');
    forall k | 0 <= k < |s'.execs| ensures Sourced(s, s'.execs[k].id, s'.execs[k].version) {
      if k >= |s.execs| {
        assert s'.execs[k] == started[k - |s.execs|];
      }
    }
  }

  lemma ShapeMessage(c: Config, s: State, step: Step)
    requires ShapeOk(c, s) && MessageStep(step) && Enabled(c, s, step)
    ensures ShapeOk(c, Next(c, s, step))
  {
    var s' := Next(c, s, step);
    SameTables(s, s');
    forall k | 0 <= k < |s'.execs| ensures Sourced(s', s'.execs[k].id, s'.execs[k].version) {
      assert Sourced(s, s.execs[k].id, s.execs[k].version);
      assert s'.execs[k].id == s.execs[k].id && s'.execs[k].version == s.execs[k].version;
    }
    forall r | r in s'.log ensures Dated(c, s'.services, r) {
      if r in s.log {
        assert Dated(c, s.services, r);
      }
    }
  }

  lemma ShapeStray(c: Config, s: State, step: Step)
    requires ShapeOk(c, s) && step.Stray? && Enabled(c, s, step)
    ensures ShapeOk(c, Next(c, s, step))
  {
    var s' := Next(c, s, step);
    SameTables(s, s');
    assert RowOk(c, step.row);
    forall r | r in s'.log ensures Dated(c, s'.services, r) {
      if r in s.log {
        assert Dated(c, s.services, r);
      }
    }
  }

  lemma ShapeOther(c: Config, s: State, step: Step)
    requires ShapeOk(c, s) && Enabled(c, s, step)
    requires step.Tick? || step.ReadServices? || step.SelectV3? || step.Abort? || step.Cleanup?
          || step.StrayOffset?
    ensures ShapeOk(c, Next(c, s, step))
  {
    SameTables(s, Next(c, s, step));
  }

  lemma ShapeStep(c: Config, s: State, step: Step)
    requires ShapeOk(c, s) && Enabled(c, s, step)
    ensures ShapeOk(c, Next(c, s, step))
  {
    if step.Create? || step.CreateV3? {
      ShapeCreate(c, s, step);
    } else if step.ReadStatuses? {
      ShapeReadStatuses(c, s, step);
    } else if step.SaveSelection? {
      ShapeSaveSelection(c, s, step);
    } else if step.SaveV3? {
      ShapeSaveV3(c, s, step);
    } else if step.Register? {
      ShapeRegister(c, s, step);
    } else if MessageStep(step) {
      ShapeMessage(c, s, step);
    } else if step.Stray? {
      ShapeStray(c, s, step);
    } else {
      ShapeOther(c, s, step);
    }
  }
}
