/** The concurrency bound: in every interleaving the status map is within its limit, and its
    unfinished entries are exactly the executors whose last message has not been applied yet. */
module DeliverySlots {
  import opened ServiceModel
  import opened Scheduling
  import opened Delivery

  /** The executor's last message has not reached the local map. */
  predicate Open(e: Exec) {
    !(|e.stages| > 0 && |e.stages| == |e.trace| && e.stages[|e.stages| - 1].Applied?)
  }

  /** Messages are sent in trace order, one stage per message sent. */
  predicate WithinTrace(e: Exec) {
    0 < |e.trace| && |e.stages| <= |e.trace|
  }

  /** An open executor owns an unfinished entry. */
  predicate Covered(e: Exec, statuses: Statuses) {
    Open(e) ==> e.id in statuses && !Terminal(statuses[e.id])
  }

  predicate Owns(e: Exec, id: Uuid, status: ServiceStatus) {
    && e.id == id && WithinTrace(e)
    && if Terminal(status) then !Open(e) && status == Verdict(e.trace) else Open(e)
  }

  /** An unfinished entry has an open executor; a finished one has an executor that said so. */
  ghost predicate Owned(id: Uuid, status: ServiceStatus, execs: seq<Exec>) {
    exists k :: 0 <= k < |execs| && Owns(execs[k], id, status)
  }

  ghost predicate AllOwned(statuses: Statuses, execs: seq<Exec>) {
    forall id :: id in statuses ==> Owned(id, statuses[id], execs)
  }

  ghost predicate AllCovered(statuses: Statuses, execs: seq<Exec>) {
    forall k :: 0 <= k < |execs| ==> WithinTrace(execs[k]) && Covered(execs[k], statuses)
  }

  predicate Apart(a: Exec, b: Exec) {
    a.id == b.id ==> !Open(a) || !Open(b)
  }

  ghost predicate OnePerService(execs: seq<Exec>) {
    forall i, k :: 0 <= i < k < |execs| ==> Apart(execs[i], execs[k])
  }

  ghost predicate SlotInv(c: Config, statuses: Statuses, execs: seq<Exec>) {
    && |statuses| <= c.processLimit
    && AllCovered(statuses, execs)
    && OnePerService(execs)
    && AllOwned(statuses, execs)
  }

  ghost predicate LegalTraces(execs: seq<Exec>) {
    forall k :: 0 <= k < |execs| ==> LegalTrace(execs[k].id, execs[k].trace)
  }

  lemma LegalMessage(execs: seq<Exec>, k: nat, j: nat)
    requires LegalTraces(execs) && k < |execs| && j < |execs[k].trace|
    ensures execs[k].trace[j].id == execs[k].id
    ensures Terminal(LocalStatus(execs[k].trace[j])) <==> j == |execs[k].trace| - 1
  {
    assert LegalTrace(execs[k].id, execs[k].trace);
  }

  /** Replacing one executor by a later version of itself that is as open as it was. */
  lemma SameOpenness(c: Config, statuses: Statuses, execs: seq<Exec>, k: nat, e: Exec)
    requires SlotInv(c, statuses, execs) && k < |execs|
    requires e.id == execs[k].id && e.trace == execs[k].trace && WithinTrace(e)
    requires Open(e) == Open(execs[k])
    ensures SlotInv(c, statuses, execs[k := e])
  {
    var after := execs[k := e];
    forall id | id in statuses ensures Owned(id, statuses[id], after) {
      var m :| 0 <= m < |execs| && Owns(execs[m], id, statuses[id]);
      assert Owns(after[m], id, statuses[id]);
    }
    forall i, m | 0 <= i < m < |after| ensures Apart(after[i], after[m]) {
      assert Apart(execs[i], execs[m]);
    }
  }

  /** Executors just created, none for a service the map knows. */
  ghost predicate Launches(launched: seq<Service>, started: seq<Exec>, statuses: Statuses) {
    && |started| == |launched|
    && (forall i :: 0 <= i < |started| ==>
          Owns(started[i], launched[i].id, Preparing) && launched[i].id !in statuses)
    && (forall i, k :: 0 <= i < k < |started| ==> started[i].id != started[k].id)
  }

  lemma RegisterCovered(statuses: Statuses, execs: seq<Exec>, launched: seq<Service>, started: seq<Exec>)
    requires AllCovered(statuses, execs) && Launches(launched, started, statuses)
    ensures AllCovered(Kept(statuses) + AsPreparing(launched), execs + started)
  {
    var after, all := Kept(statuses) + AsPreparing(launched), execs + started;
    forall k | 0 <= k < |all| ensures WithinTrace(all[k]) && Covered(all[k], after) {
      if k < |execs| {
        assert Covered(execs[k], statuses);
      } else {
        var i := k - |execs|;
        assert Owns(started[i], launched[i].id, Preparing);
        assert launched[i] in launched;
        assert launched[i].id in Ids(launched);
      }
    }
  }

  lemma RegisterApart(statuses: Statuses, execs: seq<Exec>, launched: seq<Service>, started: seq<Exec>)
    requires AllCovered(statuses, execs) && OnePerService(execs) && Launches(launched, started, statuses)
    ensures OnePerService(execs + started)
  {
    var all := execs + started;
    forall i, k | 0 <= i < k < |all| ensures Apart(all[i], all[k]) {
      if k < |execs| {
        assert Apart(execs[i], execs[k]);
      } else {
        var m := k - |execs|;
        assert all[k] == started[m] && Owns(started[m], launched[m].id, Preparing);
        if i < |execs| {
          assert Covered(execs[i], statuses);
        } else {
          assert all[i] == started[i - |execs|];
        }
      }
    }
  }

  lemma RegisterOwned(statuses: Statuses, execs: seq<Exec>, launched: seq<Service>, started: seq<Exec>)
    requires AllOwned(statuses, execs) && Launches(launched, started, statuses)
    ensures AllOwned(Kept(statuses) + AsPreparing(launched), execs + started)
  {
    var after, all := Kept(statuses) + AsPreparing(launched), execs + started;
    forall id | id in after ensures Owned(id, after[id], all) {
      if id in Ids(launched) {
        var l :| l in launched && l.id == id;
        var i :| 0 <= i < |launched| && launched[i] == l;
        assert all[|execs| + i] == started[i] && Owns(started[i], id, Preparing);
      } else {
        assert id in statuses && Owned(id, statuses[id], execs);
        var m :| 0 <= m < |execs| && Owns(execs[m], id, statuses[id]);
        assert all[m] == execs[m];
      }
    }
  }

  lemma NewExecsLaunch(statuses: Statuses, limit: nat, received: map<Uuid, Service>, launched: seq<Service>,
                       traces: seq<seq<Update>>)
    requires |launched| == |traces| && forall i :: 0 <= i < |traces| ==> traces[i] != []
    requires Registers(statuses, received, limit, launched, Kept(statuses) + AsPreparing(launched))
    ensures Launches(launched, NewExecs(launched, traces), statuses)
  {
    forall i | 0 <= i < |launched| ensures launched[i].id !in statuses {
      assert launched[i] in launched;
    }
  }

  lemma SlotsRegister(c: Config, statuses: Statuses, execs: seq<Exec>, received: map<Uuid, Service>,
                      launched: seq<Service>, traces: seq<seq<Update>>)
    requires SlotInv(c, statuses, execs)
    requires |launched| == |traces| && forall i :: 0 <= i < |traces| ==> traces[i] != []
    requires Registers(statuses, received, c.processLimit, launched, Kept(statuses) + AsPreparing(launched))
    ensures SlotInv(c, Kept(statuses) + AsPreparing(launched), execs + NewExecs(launched, traces))
  {
    var after, started := Kept(statuses) + AsPreparing(launched), NewExecs(launched, traces);
    assert |after| <= c.processLimit by {
      RegistersKeepsBound(statuses, received, c.processLimit, launched, after);
    }
    NewExecsLaunch(statuses, c.processLimit, received, launched, traces);
    RegisterCovered(statuses, execs, launched, started);
    RegisterApart(statuses, execs, launched, started);
    RegisterOwned(statuses, execs, launched, started);
  }

  lemma EarlyOwned(statuses: Statuses, execs: seq<Exec>, u: Update)
    requires AllOwned(statuses, execs) && !Terminal(LocalStatus(u))
    ensures AllOwned(Marked(statuses, u), execs)
  {
    var after := Marked(statuses, u);
    forall id | id in after ensures Owned(id, after[id], execs) {
      assert Owned(id, statuses[id], execs);
      var m :| 0 <= m < |execs| && Owns(execs[m], id, statuses[id]);
      assert Owns(execs[m], id, after[id]);
    }
  }

  /** A message that is not an executor's last leaves every entry as finished as it was. */
  lemma SlotsApplyEarly(c: Config, statuses: Statuses, execs: seq<Exec>, u: Update)
    requires SlotInv(c, statuses, execs)
    requires !Terminal(LocalStatus(u))
    ensures SlotInv(c, Marked(statuses, u), execs)
  {
    var after := Marked(statuses, u);
    assert after.Keys == statuses.Keys;
    assert |after.Keys| == |after| && |statuses.Keys| == |statuses|;
    EarlyOwned(statuses, execs, u);
    forall k | 0 <= k < |execs| ensures Covered(execs[k], after) {
      assert Covered(execs[k], statuses);
    }
  }

  /** The last message closes its executor and gives the entry the verdict. */
  lemma SlotsApplyLast(c: Config, statuses: Statuses, execs: seq<Exec>, k: nat, e: Exec)
    requires SlotInv(c, statuses, execs) && k < |execs|
    requires Open(execs[k]) && !Open(e) && WithinTrace(e)
    requires e.id == execs[k].id && e.trace == execs[k].trace
    requires Terminal(Verdict(e.trace))
    ensures SlotInv(c, statuses[e.id := Verdict(e.trace)], execs[k := e])
  {
    var after, all := statuses[e.id := Verdict(e.trace)], execs[k := e];
    assert Covered(execs[k], statuses);
    assert after.Keys == statuses.Keys;
    assert |after.Keys| == |after| && |statuses.Keys| == |statuses|;
    forall id | id in after ensures Owned(id, after[id], all) {
      if id == e.id {
        assert Owns(all[k], id, after[id]);
      } else {
        var m :| 0 <= m < |execs| && Owns(execs[m], id, statuses[id]);
        assert all[m] == execs[m];
      }
    }
    forall m | 0 <= m < |all| ensures WithinTrace(all[m]) && Covered(all[m], after) {
      if m < k {
        assert Apart(execs[m], execs[k]) && Covered(execs[m], statuses);
      } else if k < m {
        assert Apart(execs[k], execs[m]) && Covered(execs[m], statuses);
      }
    }
    forall i, m | 0 <= i < m < |all| ensures Apart(all[i], all[m]) {
      assert Apart(execs[i], execs[m]);
    }
  }

  lemma SlotsApply(c: Config, statuses: Statuses, execs: seq<Exec>, k: nat, j: nat, report: Report)
    requires SlotInv(c, statuses, execs)
    requires k < |execs| && j < |execs[k].stages| && j < |execs[k].trace| && !execs[k].stages[j].Applied?
    requires Terminal(LocalStatus(execs[k].trace[j])) <==> j == |execs[k].trace| - 1
    requires execs[k].trace[j].id == execs[k].id
    ensures SlotInv(c, Marked(statuses, execs[k].trace[j]), SetStage(execs, k, j, Applied(report)))
  {
    var e := execs[k];
    var e' := e.(stages := e.stages[j := Applied(report)]);
    if j < |e.trace| - 1 {
      SameOpenness(c, statuses, execs, k, e');
      SlotsApplyEarly(c, statuses, execs[k := e'], e.trace[j]);
    } else {
      assert Covered(e, statuses);
      SlotsApplyLast(c, statuses, execs, k, e');
      assert Marked(statuses, e.trace[j]) == statuses[e.id := Verdict(e.trace)];
    }
  }

  lemma TracesRegister(c: Config, s: State, step: Step)
    requires LegalTraces(s.execs) && step.Register? && Enabled(c, s, step)
    ensures LegalTraces(Next(c, s, step).execs)
  {
    var started := NewExecs(step.launched, step.traces);
    assert forall i :: 0 <= i < |started| ==> LegalTrace(started[i].id, started[i].trace);
  }

  lemma TracesMessage(c: Config, s: State, step: Step)
    requires LegalTraces(s.execs) && MessageStep(step) && Enabled(c, s, step)
    ensures LegalTraces(Next(c, s, step).execs)
  {
  }

  /** Only registration brings in executors; their traces are legal. */
  lemma TracesStep(c: Config, s: State, step: Step)
    requires LegalTraces(s.execs) && Enabled(c, s, step)
    ensures LegalTraces(Next(c, s, step).execs)
  {
    if step.Register? {
      TracesRegister(c, s, step);
    } else if MessageStep(step) {
      TracesMessage(c, s, step);
    } else if !step.Cleanup? {
      QuietStep(c, s, step);
    }
  }

  lemma SlotsCleanup(c: Config, statuses: Statuses, execs: seq<Exec>)
    requires SlotInv(c, statuses, execs)
    ensures SlotInv(c, Kept(statuses), execs)
  {
    Subset(Kept(statuses).Keys, statuses.Keys);
    assert |Kept(statuses).Keys| == |Kept(statuses)|;
    forall k | 0 <= k < |execs| ensures Covered(execs[k], Kept(statuses)) {
      assert Covered(execs[k], statuses);
    }
    forall id | id in Kept(statuses) ensures Owned(id, Kept(statuses)[id], execs) {
      assert Owned(id, statuses[id], execs);
    }
  }

  lemma SlotsStepRegister(c: Config, s: State, step: Step)
    requires SlotInv(c, s.statuses, s.execs) && step.Register? && Enabled(c, s, step)
    ensures SlotInv(c, Next(c, s, step).statuses, Next(c, s, step).execs)
  {
    forall i | 0 <= i < |step.traces| ensures step.traces[i] != [] {
      assert LegalTrace(step.launched[i].id, step.traces[i]);
    }
    SlotsRegister(c, s.statuses, s.execs, step.received, step.launched, step.traces);
  }

  lemma SlotsStepMessage(c: Config, s: State, step: Step)
    requires SlotInv(c, s.statuses, s.execs) && MessageStep(step) && !step.Apply? && Enabled(c, s, step)
    ensures SlotInv(c, Next(c, s, step).statuses, Next(c, s, step).execs)
  {
    var e := s.execs[step.k];
    SameOpenness(c, s.statuses, s.execs, step.k, Next(c, s, step).execs[step.k]);
  }

  lemma SlotsStepApply(c: Config, s: State, step: Step)
    requires SlotInv(c, s.statuses, s.execs) && LegalTraces(s.execs) && step.Apply? && Enabled(c, s, step)
    ensures SlotInv(c, Next(c, s, step).statuses, Next(c, s, step).execs)
  {
    LegalMessage(s.execs, step.k, step.j);
    var report := if s.execs[step.k].stages[step.j] == Committed then InTime else Missing;
    SlotsApply(c, s.statuses, s.execs, step.k, step.j, report);
  }

  /** Steps of the manager and of polling leave executors and the map alone. */
  lemma QuietStep(c: Config, s: State, step: Step)
    requires Enabled(c, s, step)
    requires !step.Register? && !MessageStep(step) && !step.Cleanup?
    ensures Next(c, s, step).statuses == s.statuses && Next(c, s, step).execs == s.execs
  {
  }

  /** Every step keeps the invariant. */
  lemma SlotsStep(c: Config, s: State, step: Step)
    requires SlotInv(c, s.statuses, s.execs) && LegalTraces(s.execs) && Enabled(c, s, step)
    ensures SlotInv(c, Next(c, s, step).statuses, Next(c, s, step).execs)
  {
    if step.Register? {
      SlotsStepRegister(c, s, step);
    } else if step.Apply? {
      SlotsStepApply(c, s, step);
    } else if MessageStep(step) {
      SlotsStepMessage(c, s, step);
    } else if step.Cleanup? {
      SlotsCleanup(c, s.statuses, s.execs);
    } else {
      QuietStep(c, s, step);
    }
  }

  lemma {:induction false} SlotsAlways(c: Config, states: seq<State>, steps: seq<Step>, i: nat)
    requires IsRun(c, states, steps) && i < |states|
    ensures SlotInv(c, states[i].statuses, states[i].execs) && LegalTraces(states[i].execs)
  {
    if i > 0 {
      SlotsAlways(c, states, steps, i - 1);
      TracesStep(c, states[i - 1], steps[i - 1]);
      SlotsStep(c, states[i - 1], steps[i - 1]);
    }
  }

  ghost function OpenExecs(execs: seq<Exec>): set<nat> {
    set k | 0 <= k < |execs| && Open(execs[k])
  }

  ghost function UnfinishedKeys(statuses: Statuses): set<Uuid> {
    set id | id in statuses && !Terminal(statuses[id])
  }

  /** A map that is one-to-one on a set carries it to a set of the same size. */
  lemma ImageSize(execs: seq<Exec>, ks: set<nat>)
    requires forall k :: k in ks ==> k < |execs|
    requires forall i, k :: i in ks && k in ks && i != k ==> execs[i].id != execs[k].id
    ensures |set k | k in ks :: execs[k].id| == |ks|
  {
    if ks != {} {
      var k :| k in ks;
      ImageSize(execs, ks - {k});
      assert (set i | i in ks :: execs[i].id) == (set i | i in ks - {k} :: execs[i].id) + {execs[k].id};
    }
  }

  lemma OpenOwnUnfinished(c: Config, statuses: Statuses, execs: seq<Exec>)
    requires SlotInv(c, statuses, execs)
    ensures (set k | k in OpenExecs(execs) :: execs[k].id) == UnfinishedKeys(statuses)
  {
    var image := set k | k in OpenExecs(execs) :: execs[k].id;
    forall id | id in UnfinishedKeys(statuses) ensures id in image {
      assert Owned(id, statuses[id], execs);
      var k :| 0 <= k < |execs| && Owns(execs[k], id, statuses[id]);
      assert k in OpenExecs(execs);
    }
    forall k | k in OpenExecs(execs) ensures execs[k].id in UnfinishedKeys(statuses) {
      assert Covered(execs[k], statuses);
    }
  }

  lemma OpenAreApart(execs: seq<Exec>, k: nat, m: nat)
    requires OnePerService(execs)
    requires k in OpenExecs(execs) && m in OpenExecs(execs) && execs[k].id == execs[m].id
    ensures k == m
  {
    assert forall i, j :: 0 <= i < j < |execs| ==> Apart(execs[i], execs[j]);
  }

  /** In every interleaving: no more than `processLimit` entries, as many open executors as
      unfinished entries, hence never more than `processLimit`, and never two for one service. */
  lemma ConcurrencyBound(c: Config, states: seq<State>, steps: seq<Step>, i: nat)
    requires IsRun(c, states, steps) && i < |states|
    ensures var s := states[i];
      && |s.statuses| <= c.processLimit
      && (set k | k in OpenExecs(s.execs) :: s.execs[k].id) == UnfinishedKeys(s.statuses)
      && |OpenExecs(s.execs)| == |UnfinishedKeys(s.statuses)| <= c.processLimit
      && (forall k, m :: k in OpenExecs(s.execs) && m in OpenExecs(s.execs) && s.execs[k].id == s.execs[m].id ==>
            k == m)
  {
    SlotsAlways(c, states, steps, i);
    var s := states[i];
    OpenOwnUnfinished(c, s.statuses, s.execs);
    forall k, m | k in OpenExecs(s.execs) && m in OpenExecs(s.execs) && s.execs[k].id == s.execs[m].id
      ensures k == m
    {
      OpenAreApart(s.execs, k, m);
    }
    ImageSize(s.execs, OpenExecs(s.execs));
    Subset(UnfinishedKeys(s.statuses), s.statuses.Keys);
  }
}
