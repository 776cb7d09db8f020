/** What the steps of one request leave behind, on the fields of services and records: the answer to the
    agent, the offset, and the `Sent` records. */
module DeliveryRequest {
  import opened Wrappers
  import opened ServiceModel
  import opened PollVault
  import opened Delivery
  import opened DeliveryOnce
  import opened DeliveryOffset

  /** Exactly the services that were `Regist` so far get a record, dated now and otherwise as before. */
  lemma {:induction false} SentRecordsAre(batch: seq<ServicePolling>, t: Time, r: StatusRow)
    ensures r in SentRecords(batch, t) <==>
            exists p :: p in batch && p.lastStatus.status == Regist
                        && r == p.lastStatus.(status := Sent, created := t)
  {
    if batch != [] {
      var n := |batch| - 1;
      var init := batch[..n];
      SentRecordsAre(init, t, r);
      assert batch == init + [batch[n]];
      if exists p :: p in batch && p.lastStatus.status == Regist && r == p.lastStatus.(status := Sent, created := t) {
        var p :| p in batch && p.lastStatus.status == Regist && r == p.lastStatus.(status := Sent, created := t);
        assert p in init || p == batch[n];
      }
      if r in SentRecords(init, t) {
        var p :| p in init && p.lastStatus.status == Regist && r == p.lastStatus.(status := Sent, created := t);
        assert p in batch;
      } else if r in SentRecords(batch, t) {
        assert batch[n] in batch;
      }
    }
  }

  /** A v4 half that found services answers with each of them once, moves the offset to the oldest of them, and
      records as sent those that were not yet. */
  lemma SavedSelection(c: Config, s: State, step: Step, id: Uuid, r: StatusRow)
    requires step.SaveSelection? && Enabled(c, s, step) && s.phase.batch != []
    ensures var s', batch := Next(c, s, step), s.phase.batch;
      && s'.phase.Answered? && s'.offset.Some? && s.log <= s'.log
      && (id in s'.phase.services <==> exists p :: p in batch && p.service.uuid == id)
      && (id in s'.phase.services ==>
            exists p :: p in batch && p.service.uuid == id
                        && s'.phase.services[id] == Service(id, V2, p.service.priority, p.service.created))
      && (exists p :: p in batch && p.service.created == s'.offset.value)
      && (forall p :: p in batch ==> s'.offset.value <= p.service.created)
      && (r in s'.log[|s.log|..] <==>
            exists p :: p in batch && p.lastStatus.status == Regist
                        && r == p.lastStatus.(status := Sent, created := step.t))
  {
    var batch := s.phase.batch;
    PolledBatchKeys(batch, id);
    OldestOfBatch(batch);
    SentRecordsAre(batch, step.t, r);
    assert Next(c, s, step).log[|s.log|..] == SentRecords(batch, step.t);
    assert id in PolledIds(batch) <==> exists p :: p in batch && p.service.uuid == id;
  }

  /** One that found nothing resets the offset, records nothing and leaves the request to the v3 half. */
  lemma SavedNothing(c: Config, s: State, step: Step)
    requires step.SaveSelection? && Enabled(c, s, step) && s.phase.batch == []
    ensures var s' := Next(c, s, step);
      s'.phase == BetweenHalves(s.phase.seen) && s'.offset == Some(0) && s'.log == s.log
  {
  }

  lemma {:induction false} V3BatchIs(batch: seq<Service>, id: Uuid)
    ensures id in V3Batch(batch) <==> exists b :: b in batch && b.id == id
    ensures id in V3Batch(batch) ==> V3Batch(batch)[id] in batch && V3Batch(batch)[id].id == id
  {
    if batch != [] {
      var n := |batch| - 1;
      var init := batch[..n];
      V3BatchIs(init, id);
      assert batch == init + [batch[n]];
      assert batch[n] in batch;
    }
  }

  /** The v3 half answers with what it found and moves the offset to the oldest of it; if that is nothing, the
      offset is reset and the request is over. */
  lemma SavedV3(c: Config, s: State, step: Step, id: Uuid)
    requires step.SaveV3? && Enabled(c, s, step)
    ensures var s', batch := Next(c, s, step), s.phase.v3batch;
      && s'.log == s.log
      && (batch == [] ==> s'.phase == Idle && s'.offset == Some(0))
      && (batch != [] ==>
            && s'.phase.Answered? && s'.offset.Some?
            && (id in s'.phase.services <==> exists b :: b in batch && b.id == id)
            && (id in s'.phase.services ==> s'.phase.services[id] in batch && s'.phase.services[id].id == id)
            && (exists b :: b in batch && b.created == s'.offset.value)
            && (forall b :: b in batch ==> s'.offset.value <= b.created))
  {
    var batch := s.phase.v3batch;
    var times := V3CreatedTimes(batch);
    V3BatchIs(batch, id);
    OldestIsLeast(times);
    forall b | b in batch ensures Oldest(times) <= b.created {
      var i :| 0 <= i < |batch| && batch[i] == b;
      assert times[i] == b.created;
    }
    if batch != [] {
      var i :| 0 <= i < |times| && times[i] == Oldest(times);
      assert batch[i] in batch;
    }
  }

  /** The agent's registration ends the request and brings in one executor for each service it starts, with all
      its messages still to come. */
  lemma Registered(c: Config, s: State, step: Step, k: nat)
    requires step.Register? && Enabled(c, s, step) && |s.execs| <= k < |Next(c, s, step).execs|
    ensures var s' := Next(c, s, step);
      && s'.phase == Idle && |s'.execs| == |s.execs| + |step.launched|
      && s'.execs[..|s.execs|] == s.execs
      && var i := k - |s.execs|;
         && s'.execs[k].id == step.launched[i].id && s'.execs[k].version == step.launched[i].version
         && s'.execs[k].trace == step.traces[i] && s'.execs[k].stages == []
         && step.launched[i].id in s'.statuses && s'.statuses[step.launched[i].id] == Preparing
  {
  }
}
