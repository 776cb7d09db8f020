/** The assumptions under which none of the three exceptions can arise: every message is recorded by
    the manager once and before the agent marks it, one executor's messages are recorded in the order
    sent, the manager's clock moves on between the records of a service, and no cleanup drops an entry
    that a pending batch names. */
module DeliveryOrderly {
  import opened ServiceModel
  import opened Scheduling
  import opened PollVault
  import opened Delivery
  import opened DeliveryOnce
  import opened DeliveryReports
  import opened DeliveryAtMostOnce

  ghost predicate Orderly(s: State, step: Step) {
    match step
    case LoseCommit(_, _) => false
    case LateCommit(_, _, _) => false
    case Stray(_, _) => false
    case Cleanup => Finished(s.statuses) !! Pending(s.phase)
    case SaveSelection(t) => forall r :: r in s.log ==> r.created < t
    case Commit(k, j, t) =>
      k < |s.execs| ==>
        && (forall m :: 0 <= m < j && m < |s.execs[k].stages| ==> s.execs[k].stages[m] != Emitted)
        && (forall r :: r in s.log && r.uuid == s.execs[k].id ==> r.created < t)
    case _ => true
  }

  ghost predicate Known(log: seq<StatusRow>, id: Uuid) {
    exists r :: r in log && r.uuid == id
  }

  /** Nothing lost, and a message still in the agent has everything sent after it there too. */
  ghost predicate InOrder(e: Exec) {
    && (forall j :: 0 <= j < |e.stages| ==> e.stages[j] in {Emitted, Committed, Applied(InTime)})
    && (forall j, m :: 0 <= j < m < |e.stages| && e.stages[j] == Emitted ==> e.stages[m] == Emitted)
  }

  /** What a poll selected: new to the log exactly when it is still `Regist`. */
  ghost predicate FreshOrKnown(log: seq<StatusRow>, p: ServicePolling) {
    if p.lastStatus.status == Regist then !Known(log, p.service.uuid) else Known(log, p.service.uuid)
  }

  ghost predicate PendingKnown(s: State) {
    match s.phase
    case Selected(batch, _) => forall p :: p in batch ==> FreshOrKnown(s.log, p)
    case Answered(services) => forall k :: k in services && services[k].version == V2 ==> Known(s.log, k)
    case _ => true
  }

  ghost predicate OrderlyInv(s: State) {
    && s.forgotten == {}
    && (forall k :: 0 <= k < |s.execs| ==> InOrder(s.execs[k]))
    && (forall k :: 0 <= k < |s.execs| && s.execs[k].version == V2 ==> Known(s.log, s.execs[k].id))
    && (forall r :: r in s.log ==> r.status != Regist)
    && (forall id :: !Regressed(s.log, id))
    && PendingKnown(s)
  }

  lemma NothingLost(s: State, id: Uuid)
    requires OrderlyInv(s)
    ensures !MarkedFirst(s.execs, id)
  {
    forall k, j | 0 <= k < |s.execs| ensures !MarkedFirstAt(s.execs[k], j) {
      assert InOrder(s.execs[k]);
    }
  }

  lemma NotExcused(s: State, id: Uuid)
    requires OrderlyInv(s)
    ensures !Excused(s, id)
  {
    NothingLost(s, id);
  }

  lemma KnownForever(log: seq<StatusRow>, log': seq<StatusRow>, id: Uuid)
    requires Known(log, id) && log <= log'
    ensures Known(log', id)
  {
    var r :| r in log && r.uuid == id;
    assert r in log';
  }

  // ---------------------------------------------------------------- steps

  /** Once a service is concluded none of its executor's messages is still on its way. */
  lemma ConcludedAllHandled(s: State, id: Uuid, k: nat, j: nat)
    requires ReportsOk(s) && AtMostOne(s.execs, id) && Concluded(s.log, id)
    requires k < |s.execs| && s.execs[k].id == id && InOrder(s.execs[k]) && j < |s.execs[k].stages|
    ensures s.execs[k].stages[j] != Emitted
  {
    var a :| a in s.log && a.uuid == id && !Unfinished(a.status);
    assert Reported(s.execs, a);
    var m :| 0 <= m < |s.execs| && Caused(s.execs[m], a);
    assert m == k;
    assert TraceOk(s.execs[k]);
  }

  lemma NotConcludedYet(c: Config, s: State, k: nat, j: nat)
    requires Inv(c, s) && OrderlyInv(s) && k < |s.execs| && s.execs[k].version == V2
    requires j < |s.execs[k].stages| && s.execs[k].stages[j] == Emitted
    ensures !Concluded(s.log, s.execs[k].id)
  {
    var id := s.execs[k].id;
    assert Sourced(s, id, V2);
    NotExcused(s, id);
    OnceFromInv(c, s, id);
    if Concluded(s.log, id) {
      ConcludedAllHandled(s, id, k, j);
    }
  }

  /** A record newer than all others of a service that is not concluded regresses nothing. */
  lemma AppendInOrder(log: seq<StatusRow>, r: StatusRow, id: Uuid)
    requires !Regressed(log, id)
    requires !Concluded(log, r.uuid) && forall b :: b in log && b.uuid == r.uuid ==> b.created < r.created
    ensures !Regressed(log + [r], id)
  {
    var log' := log + [r];
    forall a, b | a in log' && b in log' && a.uuid == id ensures !Supersedes(b, a) {
      assert a in log || a == r;
      assert b in log || b == r;
    }
  }

  lemma OrderlyCommit(c: Config, s: State, step: Step)
    requires Inv(c, s) && OrderlyInv(s) && step.Commit? && Enabled(c, s, step) && Orderly(s, step)
    requires s.execs[step.k].version == V2
    ensures forall id :: !Regressed(Next(c, s, step).log, id)
  {
    var e := s.execs[step.k];
    NotConcludedYet(c, s, step.k, step.j);
    forall id ensures !Regressed(Next(c, s, step).log, id) {
      AppendInOrder(s.log, ReportRow(c, s.services, e, e.trace[step.j], step.t), id);
    }
  }

  lemma StillOrdered(log: seq<StatusRow>, log': seq<StatusRow>, id: Uuid)
    requires !Regressed(log, id)
    requires forall a, b :: a in log' && b in log' && a.uuid == id && Supersedes(b, a) ==> a in log && b in log
    ensures !Regressed(log', id)
  {
  }

  lemma OrderlySave(c: Config, s: State, step: Step)
    requires OrderlyInv(s) && ShapeOk(c, s) && step.SaveSelection? && Enabled(c, s, step)
    ensures forall id :: !Regressed(Next(c, s, step).log, id)
    ensures forall r :: r in Next(c, s, step).log ==> r.status != Regist
  {
    var s', batch := Next(c, s, step), s.phase.batch;
    forall r | r in s'.log && r !in s.log ensures r.status == Sent && !Known(s.log, r.uuid) {
      SentOfFresh(c, s, batch, step.t, r);
    }
    forall id ensures !Regressed(s'.log, id) {
      forall a, b | a in s'.log && b in s'.log && a.uuid == id && Supersedes(b, a)
        ensures a in s.log && b in s.log
      {
        assert a in s.log ==> Known(s.log, id);
      }
      StillOrdered(s.log, s'.log, id);
    }
  }

  /** A `Sent` row is only ever written for a service the log does not mention yet. */
  lemma {:induction false} SentFrom(batch: seq<ServicePolling>, t: Time, r: StatusRow)
    requires r in SentRecords(batch, t)
    ensures exists p :: p in batch && p.lastStatus.status == Regist && r == p.lastStatus.(status := Sent, created := t)
  {
    var n := |batch| - 1;
    if r in SentRecords(batch[..n], t) {
      SentFrom(batch[..n], t, r);
      var p :| p in batch[..n] && p.lastStatus.status == Regist && r == p.lastStatus.(status := Sent, created := t);
      assert p in batch;
    } else {
      assert batch[n] in batch;
    }
  }

  lemma SentOfFresh(c: Config, s: State, batch: seq<ServicePolling>, t: Time, r: StatusRow)
    requires PendingKnown(s) && PhaseOk(c, s) && s.phase.Selected? && batch == s.phase.batch
    requires r in SentRecords(batch, t)
    ensures r.status == Sent && !Known(s.log, r.uuid)
  {
    SentFrom(batch, t, r);
    var p :| p in batch && p.lastStatus.status == Regist && r == p.lastStatus.(status := Sent, created := t);
    assert FreshOrKnown(s.log, p) && PolledOk(c, s.services, p);
  }

  lemma {:induction false} SentFor(batch: seq<ServicePolling>, t: Time, p: ServicePolling)
    requires p in batch && p.lastStatus.status == Regist
    ensures p.lastStatus.(status := Sent, created := t) in SentRecords(batch, t)
  {
    var n := |batch| - 1;
    if p != batch[n] {
      assert p in batch[..n];
      SentFor(batch[..n], t, p);
    }
  }

  lemma SavedIsKnown(c: Config, s: State, step: Step)
    requires OrderlyInv(s) && ShapeOk(c, s) && step.SaveSelection? && Enabled(c, s, step)
    ensures PendingKnown(Next(c, s, step))
  {
    var s', batch := Next(c, s, step), s.phase.batch;
    forall k | k in PolledBatch(batch) ensures Known(s'.log, k) {
      PolledBatchKeys(batch, k);
      var p :| p in batch && p.service.uuid == k;
      assert FreshOrKnown(s.log, p) && PolledOk(c, s.services, p);
      if p.lastStatus.status == Regist {
        SentFor(batch, step.t, p);
        assert p.lastStatus.(status := Sent, created := step.t) in s'.log;
      } else {
        KnownForever(s.log, s'.log, k);
      }
    }
  }

  /** A selected service is `Regist` exactly when nothing is logged about it. */
  lemma SelectedIsFreshOrKnown(c: Config, s: State, step: Step)
    requires OrderlyInv(s) && ShapeOk(c, s) && step.ReadStatuses? && Enabled(c, s, step)
    ensures PendingKnown(Next(c, s, step))
  {
    var s' := Next(c, s, step);
    PolledFacts(c, s, s.phase.from, s.phase.seen, step.polled);
    forall p | p in s'.phase.batch ensures FreshOrKnown(s'.log, p) {
      SelectionMembers(step.polled, c.pollLimit, c.timelimit, s.phase.ltime, p);
      assert p.service in s.services;
      LatestOfKnown(c, s, p.service);
    }
  }

  lemma LatestOfKnown(c: Config, s: State, row: ServiceRow)
    requires TablesOk(c, s) && LogOk(c, s) && row in s.services
    requires forall r :: r in s.log ==> r.status != Regist
    ensures Latest(Default(row), s.log).status == Regist <==> !Known(s.log, row.uuid)
  {
    var l := Latest(Default(row), s.log);
    LatestIsNewest(Default(row), s.log);
    if Known(s.log, row.uuid) {
      var r :| r in s.log && r.uuid == row.uuid;
      assert Dated(c, s.services, r);
      var dated :| dated in s.services && dated.uuid == r.uuid && dated.created < r.created;
      SameRow(s.services, row, dated);
    }
  }

  lemma OrderlyExecs(c: Config, s: State, step: Step)
    requires OrderlyInv(s) && ShapeOk(c, s) && Enabled(c, s, step) && Orderly(s, step)
    requires step.Emit? || step.Commit? || step.Apply?
    ensures var s' := Next(c, s, step);
      && (forall k :: 0 <= k < |s'.execs| ==> InOrder(s'.execs[k]))
      && (forall k :: 0 <= k < |s'.execs| && s'.execs[k].version == V2 ==> Known(s'.log, s'.execs[k].id))
  {
    var s' := Next(c, s, step);
    forall k | 0 <= k < |s'.execs|
      ensures InOrder(s'.execs[k]) && (s'.execs[k].version == V2 ==> Known(s'.log, s'.execs[k].id))
    {
      assert InOrder(s.execs[k]);
      if s.execs[k].version == V2 {
        KnownForever(s.log, s'.log, s.execs[k].id);
      }
    }
  }

  lemma OrderlyRegister(c: Config, s: State, step: Step)
    requires OrderlyInv(s) && ShapeOk(c, s) && step.Register? && Enabled(c, s, step)
    ensures OrderlyInv(Next(c, s, step))
  {
    var s' := Next(c, s, step);
    var started := NewExecs(step.launched, step.traces);
    forall i | 0 <= i < |started|
      ensures InOrder(started[i]) && (started[i].version == V2 ==> Known(s.log, started[i].id))
    {
      var l := step.launched[i];
      assert l in step.launched;
      assert l.id in Unknown(s.statuses, step.received) && step.received[l.id] == l;
      assert s.phase.services[l.id] == l;
    }
    KnownJoined(s, started, s');
  }

  lemma KnownJoined(s: State, started: seq<Exec>, s': State)
    requires OrderlyInv(s) && s'.execs == s.execs + started && s'.log == s.log
    requires s'.forgotten == s.forgotten && s'.phase == Idle
    requires forall i :: 0 <= i < |started| ==>
               InOrder(started[i]) && (started[i].version == V2 ==> Known(s.log, started[i].id))
    ensures OrderlyInv(s')
  {
    forall k | 0 <= k < |s'.execs|
      ensures InOrder(s'.execs[k]) && (s'.execs[k].version == V2 ==> Known(s'.log, s'.execs[k].id))
    {
      if k >= |s.execs| {
        assert s'.execs[k] == started[k - |s.execs|];
      }
    }
  }

  /** New records are only about services the log knows already, so nothing fresh becomes known. */
  lemma PendingStaysKnown(c: Config, s: State, step: Step)
    requires OrderlyInv(s) && ShapeOk(c, s) && Enabled(c, s, step) && (step.Emit? || step.Commit? || step.Apply?)
    ensures PendingKnown(Next(c, s, step))
  {
    var s' := Next(c, s, step);
    forall id ensures Known(s'.log, id) <==> Known(s.log, id) {
      if Known(s.log, id) {
        KnownForever(s.log, s'.log, id);
      }
      if Known(s'.log, id) {
        var r :| r in s'.log && r.uuid == id;
        if r !in s.log {
          assert id == s.execs[step.k].id;
        }
      }
    }
    if s.phase.Selected? {
      forall p | p in s.phase.batch ensures FreshOrKnown(s'.log, p) {
        assert FreshOrKnown(s.log, p);
      }
    }
  }

  /** A step of an executor's message leaves the log as it is, or adds one report to it. */
  lemma OrderlyRecords(c: Config, s: State, step: Step)
    requires (forall r :: r in s.log ==> r.status != Regist) && MessageStep(step) && Enabled(c, s, step)
    ensures forall r :: r in Next(c, s, step).log ==> r.status != Regist
  {
  }

  lemma OrderlyRegression(c: Config, s: State, step: Step, id: Uuid)
    requires Inv(c, s) && OrderlyInv(s) && Enabled(c, s, step) && Orderly(s, step)
    requires step.Emit? || step.Commit? || step.Apply?
    ensures !Regressed(Next(c, s, step).log, id)
  {
    if step.Commit? && s.execs[step.k].version == V2 {
      OrderlyCommit(c, s, step);
    } else {
      assert Next(c, s, step).log == s.log;
    }
  }

  lemma OrderlyMessage(c: Config, s: State, step: Step)
    requires Inv(c, s) && OrderlyInv(s) && Enabled(c, s, step) && Orderly(s, step)
    requires step.Emit? || step.Commit? || step.Apply?
    ensures OrderlyInv(Next(c, s, step))
  {
    OrderlyExecs(c, s, step);
    PendingStaysKnown(c, s, step);
    OrderlyRecords(c, s, step);
    forall id ensures !Regressed(Next(c, s, step).log, id) {
      OrderlyRegression(c, s, step, id);
    }
  }

  lemma OrderlySaveStep(c: Config, s: State, step: Step)
    requires ShapeOk(c, s) && OrderlyInv(s) && step.SaveSelection? && Enabled(c, s, step)
    ensures OrderlyInv(Next(c, s, step))
  {
    OrderlySave(c, s, step);
    SavedIsKnown(c, s, step);
    forall k | 0 <= k < |s.execs| && s.execs[k].version == V2 ensures Known(Next(c, s, step).log, s.execs[k].id) {
      KnownForever(s.log, Next(c, s, step).log, s.execs[k].id);
    }
  }

  lemma OrderlySaveV3(c: Config, s: State, step: Step)
    requires ShapeOk(c, s) && OrderlyInv(s) && step.SaveV3? && Enabled(c, s, step)
    ensures OrderlyInv(Next(c, s, step))
  {
    forall k | k in V3Batch(s.phase.v3batch) ensures V3Batch(s.phase.v3batch)[k].version == V1 {
      V3BatchKeys(s.phase.v3batch, k);
      var b :| b in s.phase.v3batch && b.id == k && V3Batch(s.phase.v3batch)[k] == b;
      assert b in s.v3services;
    }
  }

  /** Steps that touch neither executors nor the log, nor pick anything. */
  lemma OrderlyTurn(c: Config, s: State, step: Step)
    requires OrderlyInv(s) && Enabled(c, s, step) && Orderly(s, step)
    requires step.Create? || step.CreateV3? || step.Tick? || step.ReadServices? || step.SelectV3? || step.Abort?
          || step.Cleanup? || step.StrayOffset?
    ensures OrderlyInv(Next(c, s, step))
  {
  }

  lemma OrderlyStep(c: Config, s: State, step: Step)
    requires Inv(c, s) && OrderlyInv(s) && Enabled(c, s, step) && Orderly(s, step)
    ensures OrderlyInv(Next(c, s, step))
  {
    if step.Register? {
      OrderlyRegister(c, s, step);
    } else if step.Emit? || step.Commit? || step.Apply? {
      OrderlyMessage(c, s, step);
    } else if step.SaveSelection? {
      OrderlySaveStep(c, s, step);
    } else if step.ReadStatuses? {
      SelectedIsFreshOrKnown(c, s, step);
    } else if step.SaveV3? {
      OrderlySaveV3(c, s, step);
    } else {
      OrderlyTurn(c, s, step);
    }
  }

  lemma {:induction false} OrderlyAlways(c: Config, states: seq<State>, steps: seq<Step>, i: nat)
    requires IsRun(c, states, steps) && i < |states|
    requires forall k :: 0 <= k < |steps| ==> Orderly(states[k], steps[k])
    ensures OrderlyInv(states[i])
  {
    if i > 0 {
      OrderlyAlways(c, states, steps, i - 1);
      AlwaysInv(c, states, steps, i - 1);
      OrderlyStep(c, states[i - 1], steps[i - 1]);
    }
  }

  /** In an orderly run no v4 service ever gets a second executor. */
  lemma OrderlyRunsExecuteOnce(c: Config, states: seq<State>, steps: seq<Step>, i: nat, a: nat, b: nat)
    requires IsRun(c, states, steps) && i < |states|
    requires forall k :: 0 <= k < |steps| ==> Orderly(states[k], steps[k])
    requires a < |states[i].execs| && b < |states[i].execs| && states[i].execs[a].id == states[i].execs[b].id
    requires HasRow(states[i], states[i].execs[a].id)
    ensures a == b
  {
    OrderlyAlways(c, states, steps, i);
    NotExcused(states[i], states[i].execs[a].id);
    if a < b {
      AtMostOnce(c, states, steps, i, a, b);
    } else if b < a {
      AtMostOnce(c, states, steps, i, b, a);
    }
  }
}
