/** The manager's log and the executors' messages tell the same story: a finished record exists
    exactly for the last messages that reached the manager. */
module DeliveryReports {
  import opened ServiceModel
  import opened PollVault
  import opened Delivery
  import opened DeliveryOnce

  /** The manager recorded message `j` of a V2 executor, if late. */
  predicate Handled(e: Exec, j: nat) {
    && e.version == V2 && j < |e.stages| && j < |e.trace|
    && (e.stages[j] == Committed || (e.stages[j].Applied? && e.stages[j] != Applied(Missing)))
  }

  ghost predicate HasRecord(log: seq<StatusRow>, id: Uuid, status: ManagerStatus) {
    exists r :: r in log && r.uuid == id && r.status == status
  }

  ghost predicate RecordedAt(log: seq<StatusRow>, e: Exec, j: nat) {
    Handled(e, j) ==> HasRecord(log, e.id, ReportedStatus(e.trace[j]))
  }

  lemma {:induction false} StepMaxIs(services: seq<ServiceRow>, row: ServiceRow)
    requires DistinctRows(services) && row in services
    ensures StepMaxOf(services, row.uuid) == row.stepMax
  {
    var n := |services| - 1;
    if services[n].uuid != row.uuid {
      assert services == services[..n] + [services[n]];
      StepMaxIs(services[..n], row);
    } else {
      SameRow(services, row, services[n]);
    }
  }

  /** What the manager records for a message on a v4 service, when it comes in time and when it comes late: the
      number of steps from the service's row, the step counted from one, and the status that the step has. */
  lemma RecordOfMessage(c: Config, s: State, step: Step, row: ServiceRow)
    requires TablesOk(c, s) && (step.Commit? || step.LateCommit?) && Enabled(c, s, step)
    requires s.execs[step.k].version == V2 && row in s.services && row.uuid == s.execs[step.k].id
    ensures var u := s.execs[step.k].trace[step.j];
      Next(c, s, step).log == s.log + [
        StatusRow(c.cluster, row.uuid, step.t, row.stepMax, u.sequence + 1,
                  if u.status == StepFail then ManagerFailed
                  else if u.status == StepSuccess then Succeeded
                  else InProgress)]
  {
    StepMaxIs(s.services, row);
  }

  /** A message with a finished status comes last, on both sides alike. */
  predicate EndsAt(e: Exec, j: nat)
    requires j < |e.trace|
  {
    && e.trace[j].id == e.id
    && (Terminal(LocalStatus(e.trace[j])) <==> j == |e.trace| - 1)
    && (e.version == V2 ==> (!Unfinished(ReportedStatus(e.trace[j])) <==> j == |e.trace| - 1))
    && (e.version == V2 && j == |e.trace| - 1 ==>
          (ReportedStatus(e.trace[j]) == Succeeded <==> LocalStatus(e.trace[j]) == Success))
  }

  ghost predicate TraceOk(e: Exec) {
    |e.stages| <= |e.trace| && 0 < |e.trace| && forall j :: 0 <= j < |e.trace| ==> EndsAt(e, j)
  }

  predicate Caused(e: Exec, r: StatusRow) {
    && e.id == r.uuid && 0 < |e.trace| && Handled(e, |e.trace| - 1)
    && r.status == ReportedStatus(e.trace[|e.trace| - 1])
  }

  /** A finished record is the last message of some executor. */
  ghost predicate Reported(execs: seq<Exec>, r: StatusRow) {
    !Unfinished(r.status) ==> exists k :: 0 <= k < |execs| && Caused(execs[k], r)
  }

  ghost predicate ReportsOk(s: State) {
    && (forall k :: 0 <= k < |s.execs| ==> TraceOk(s.execs[k]))
    && (forall k, j :: 0 <= k < |s.execs| && 0 <= j < |s.execs[k].stages| ==> RecordedAt(s.log, s.execs[k], j))
    && (forall r :: r in s.log ==> Reported(s.execs, r))
  }

  lemma MoreRecords(log: seq<StatusRow>, more: seq<StatusRow>, id: Uuid, status: ManagerStatus)
    requires HasRecord(log, id, status)
    ensures HasRecord(log + more, id, status)
  {
    var r :| r in log && r.uuid == id && r.status == status;
    assert r in log + more;
  }

  lemma ReportsJoined(s: State, started: seq<Exec>, s': State)
    requires ReportsOk(s) && s'.execs == s.execs + started && s'.log == s.log
    requires forall i :: 0 <= i < |started| ==> TraceOk(started[i]) && started[i].stages == []
    ensures ReportsOk(s')
  {
    forall k | 0 <= k < |s'.execs|
      ensures TraceOk(s'.execs[k])
      ensures forall j :: 0 <= j < |s'.execs[k].stages| ==> RecordedAt(s'.log, s'.execs[k], j)
    {
      if k >= |s.execs| {
        assert s'.execs[k] == started[k - |s.execs|];
      }
    }
    forall r | r in s'.log ensures Reported(s'.execs, r) {
      assert Reported(s.execs, r);
      if !Unfinished(r.status) {
        var k :| 0 <= k < |s.execs| && Caused(s.execs[k], r);
        assert s'.execs[k] == s.execs[k];
      }
    }
  }

  lemma ReportsRegister(c: Config, s: State, step: Step)
    requires ReportsOk(s) && step.Register? && Enabled(c, s, step)
    ensures ReportsOk(Next(c, s, step))
  {
    var started := NewExecs(step.launched, step.traces);
    forall i | 0 <= i < |started| ensures TraceOk(started[i]) {
      StartedTraceOk(started[i]);
    }
    ReportsJoined(s, started, Next(c, s, step));
  }

  lemma StartedTraceOk(e: Exec)
    requires LegalTrace(e.id, e.trace) && (e.version == V2 ==> Agreeing(e.trace)) && e.stages == []
    ensures TraceOk(e)
  {
  }

  /** Moving one message on, with the log growing by at most its own record. */
  lemma ReportsMoved(s: State, k: nat, e: Exec, more: seq<StatusRow>, s': State)
    requires ReportsOk(s) && k < |s.execs|
    requires e.id == s.execs[k].id && e.version == s.execs[k].version && e.trace == s.execs[k].trace
    requires |s.execs[k].stages| <= |e.stages| <= |e.trace|
    requires forall j :: 0 <= j < |s.execs[k].stages| && Handled(s.execs[k], j) ==> Handled(e, j)
    requires forall j :: 0 <= j < |e.stages| && Handled(e, j) ==>
               Handled(s.execs[k], j) || HasRecord(more, e.id, ReportedStatus(e.trace[j]))
    requires forall r :: r in more && !Unfinished(r.status) ==> Caused(e, r)
    requires s'.execs == s.execs[k := e] && s'.log == s.log + more
    ensures ReportsOk(s')
  {
    forall m | 0 <= m < |s'.execs| ensures TraceOk(s'.execs[m]) {
      assert TraceOk(s.execs[m]);
      if m == k {
        forall j | 0 <= j < |e.trace| ensures EndsAt(e, j) {
          assert EndsAt(s.execs[k], j);
        }
      }
    }
    forall m, j | 0 <= m < |s'.execs| && 0 <= j < |s'.execs[m].stages|
      ensures RecordedAt(s'.log, s'.execs[m], j)
    {
      var e0 := s.execs[m];
      if Handled(s'.execs[m], j) {
        if Handled(e0, j) {
          assert RecordedAt(s.log, e0, j);
          MoreRecords(s.log, more, e0.id, ReportedStatus(e0.trace[j]));
        } else {
          var r :| r in more && r.uuid == e.id && r.status == ReportedStatus(e.trace[j]);
          assert r in s'.log;
        }
      }
    }
    forall r | r in s'.log ensures Reported(s'.execs, r) {
      if r in s.log {
        assert Reported(s.execs, r);
        if !Unfinished(r.status) {
          var m :| 0 <= m < |s.execs| && Caused(s.execs[m], r);
          assert Caused(s'.execs[m], r);
        }
      } else if !Unfinished(r.status) {
        assert Caused(s'.execs[k], r);
      }
    }
  }

  lemma ReportsMessage(c: Config, s: State, step: Step)
    requires ReportsOk(s) && MessageStep(step) && Enabled(c, s, step)
    ensures ReportsOk(Next(c, s, step))
  {
    var s' := Next(c, s, step);
    var e := s.execs[step.k];
    assert TraceOk(e);
    if step.Emit? {
      ReportsMoved(s, step.k, e.(stages := e.stages + [Emitted]), [], s');
    } else if step.LoseCommit? {
      ReportsMoved(s, step.k, e.(stages := e.stages[step.j := Lost]), [], s');
    } else if step.Apply? {
      ReportsMoved(s, step.k, s'.execs[step.k], [], s');
    } else {
      ReportsCommit(c, s, step, s');
    }
  }

  lemma ReportsCommit(c: Config, s: State, step: Step, s': State)
    requires ReportsOk(s) && (step.Commit? || step.LateCommit?) && Enabled(c, s, step) && s' == Next(c, s, step)
    ensures ReportsOk(s')
  {
    var e, j := s.execs[step.k], step.j;
    var e' := s'.execs[step.k];
    assert TraceOk(e) && EndsAt(e, j);
    var more := if e.version == V2 then [ReportRow(c, s.services, e, e.trace[j], step.t)] else [];
    if e.version == V2 {
      assert more[0] in more;
      assert HasRecord(more, e.id, ReportedStatus(e.trace[j]));
    }
    ReportsMoved(s, step.k, e', more, s');
  }

  /** Records that say a service was sent have no cause among the messages, and need none. */
  lemma ReportsSent(s: State, more: seq<StatusRow>, s': State)
    requires ReportsOk(s) && s'.execs == s.execs && s'.log == s.log + more
    requires forall r :: r in more ==> Unfinished(r.status)
    ensures ReportsOk(s')
  {
    forall k, j | 0 <= k < |s.execs| && 0 <= j < |s.execs[k].stages| ensures RecordedAt(s'.log, s.execs[k], j) {
      assert RecordedAt(s.log, s.execs[k], j);
      if Handled(s.execs[k], j) {
        MoreRecords(s.log, more, s.execs[k].id, ReportedStatus(s.execs[k].trace[j]));
      }
    }
    forall r | r in s'.log ensures Reported(s'.execs, r) {
      if r in s.log {
        assert Reported(s.execs, r);
      }
    }
  }

  lemma ReportsSave(c: Config, s: State, step: Step)
    requires ReportsOk(s) && step.SaveSelection? && Enabled(c, s, step)
    ensures ReportsOk(Next(c, s, step))
  {
    var more := SentRecords(s.phase.batch, step.t);
    forall r | r in more ensures Unfinished(r.status) {
      SentRecordsFrom(s.phase.batch, step.t, r);
    }
    ReportsSent(s, more, Next(c, s, step));
  }

  lemma ReportsStep(c: Config, s: State, step: Step)
    requires ReportsOk(s) && Enabled(c, s, step)
    ensures ReportsOk(Next(c, s, step))
  {
    if step.Register? {
      ReportsRegister(c, s, step);
    } else if MessageStep(step) {
      ReportsMessage(c, s, step);
    } else if step.SaveSelection? {
      ReportsSave(c, s, step);
    } else if step.Stray? {
      ReportsSent(s, [Default(step.row).(status := Sent, created := step.t)], Next(c, s, step));
    }
  }
}
