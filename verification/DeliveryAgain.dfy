/** The other direction of at most once: exactly when the next request of the agent may start a service,
    and so start it again. */
module DeliveryAgain {
  import opened ServiceModel
  import opened Scheduling
  import opened PollVault
  import opened Wrappers
  import opened Delivery
  import opened DeliveryOnce
  import opened DeliveryAtMostOnce

  /** The choices of a request that nothing interrupts: what the database hands out, when the manager
      saves, what the agent registers. */
  datatype Request = Request(polled: seq<ServicePolling>, t: Time, received: map<Uuid, Service>,
                             launched: seq<Service>, traces: seq<seq<Update>>)

  /** The request's steps are possible one after the other, and lead from `s` to `s'`. */
  ghost predicate Leads(c: Config, s: State, q: Request, s': State) {
    && Enabled(c, s, ReadServices)
    && var s1 := Next(c, s, ReadServices);
    && Enabled(c, s1, ReadStatuses(q.polled))
    && var s2 := Next(c, s1, ReadStatuses(q.polled));
    && Enabled(c, s2, SaveSelection(q.t))
    && var s3 := Next(c, s2, SaveSelection(q.t));
    && var last := Register(q.received, q.launched, q.traces);
    && Enabled(c, s3, last)
    && s' == Next(c, s3, last)
  }

  function From(c: Config, s: State): int {
    EffectiveOffset(s.offset, WindowStart(s.now, c.timelimit))
  }

  /** What the database hands out to a request that begins in `s`. */
  ghost predicate HandedOut(c: Config, s: State, polled: seq<ServicePolling>) {
    IsPolling(QueryServices(s.services, c.cluster, Some(From(c, s))),
              QueryStatuses(s.log, c.cluster, Some(From(c, s))), polled)
  }

  function Seen(s: State, row: ServiceRow): ServicePolling {
    ServicePolling(row, Latest(Default(row), s.log))
  }

  /** A service with no entry that looks unfinished, lies in the window, is neither hidden by the offset
      nor cut off by the cap, while a slot is free. */
  ghost predicate MayStart(c: Config, s: State, polled: seq<ServicePolling>, row: ServiceRow) {
    && row.uuid !in s.statuses
    && Eligible(Seen(s, row), c.timelimit, WindowStart(s.now, c.timelimit))
    && From(c, s) <= row.created
    && Seen(s, row) in Picked(c, s, polled)
    && Free(s.statuses, c.processLimit) > 0
  }

  /** A run of one step that succeeds. */
  function Trace(id: Uuid): seq<Update> {
    [Update(id, 1, 0, StepProcessing), Update(id, 1, 0, StepSuccess)]
  }

  function RequestFor(polled: seq<ServicePolling>, t: Time, row: ServiceRow): Request {
    Request(polled, t, map[row.uuid := AsService(row)], [AsService(row)], [Trace(row.uuid)])
  }

  lemma PolledKnows(c: Config, s: State, polled: seq<ServicePolling>, row: ServiceRow, p: ServicePolling)
    requires ShapeOk(c, s) && HandedOut(c, s, polled) && row in s.services
    requires p in polled && p.service.uuid == row.uuid
    ensures p == Seen(s, row) && From(c, s) <= row.created
  {
    assert s.services[..|s.services|] == s.services;
    PolledFacts(c, s, From(c, s), |s.services|, polled);
    SameRow(s.services, p.service, row);
  }

  function Picked(c: Config, s: State, polled: seq<ServicePolling>): seq<ServicePolling> {
    Selection(polled, c.pollLimit, c.timelimit, WindowStart(s.now, c.timelimit))
  }

  /** The state once the tables are read, and once the selection is saved. */
  ghost function Selecting(c: Config, s: State, polled: seq<ServicePolling>): State {
    s.(phase := Selected(Picked(c, s, polled), |s.services|),
       capped := s.capped + BeyondCap(polled, c, WindowStart(s.now, c.timelimit)))
  }

  lemma Reads(c: Config, s: State, polled: seq<ServicePolling>)
    requires s.phase == Idle
    ensures Enabled(c, s, ReadServices)
    ensures Enabled(c, Next(c, s, ReadServices), ReadStatuses(polled)) <==> HandedOut(c, s, polled)
    ensures HandedOut(c, s, polled) ==>
              Next(c, Next(c, s, ReadServices), ReadStatuses(polled)) == Selecting(c, s, polled)
  {
    assert s.services[..|s.services|] == s.services;
  }

  lemma Saves(c: Config, s: State, polled: seq<ServicePolling>, t: Time)
    ensures Enabled(c, Selecting(c, s, polled), SaveSelection(t)) <==> LaterThan(Picked(c, s, polled), t)
    ensures LaterThan(Picked(c, s, polled), t) ==>
              var s3 := Next(c, Selecting(c, s, polled), SaveSelection(t));
              && s3.statuses == s.statuses && s3.execs == s.execs
              && s3.phase == if Picked(c, s, polled) == [] then BetweenHalves(|s.services|)
                             else Answered(PolledBatch(Picked(c, s, polled)))
  {
  }

  ghost predicate LaterThan(batch: seq<ServicePolling>, t: Time) {
    forall p :: p in batch ==> p.service.created < t
  }

  function Later(batch: seq<ServicePolling>): Time {
    if batch == [] then 0 else Later(batch[1..]) + batch[0].service.created + 1
  }

  lemma {:induction false} LaterIsLater(batch: seq<ServicePolling>)
    ensures LaterThan(batch, Later(batch))
  {
    if batch != [] {
      LaterIsLater(batch[1..]);
      assert batch == [batch[0]] + batch[1..];
    }
  }

  /** If the next request starts the service, the condition held. */
  lemma OnlyThenStarts(c: Config, s: State, q: Request, s': State, row: ServiceRow)
    requires ShapeOk(c, s) && row in s.services && Leads(c, s, q, s') && row.uuid in Ids(q.launched)
    ensures HandedOut(c, s, q.polled) && MayStart(c, s, q.polled, row)
  {
    Reads(c, s, q.polled);
    Saves(c, s, q.polled, q.t);
    var s3 := Next(c, Selecting(c, s, q.polled), SaveSelection(q.t));
    var last := Register(q.received, q.launched, q.traces);
    assert Enabled(c, s3, last);
    StartedFrom(c, s3, last, row.uuid);
    PickedKnows(c, s, q.polled, row);
  }

  lemma StartedFrom(c: Config, s: State, step: Step, id: Uuid)
    requires step.Register? && Enabled(c, s, step) && id in Ids(step.launched)
    ensures s.phase.Answered? && id in s.phase.services && id !in s.statuses && Free(s.statuses, c.processLimit) > 0
  {
    var l :| l in step.launched && l.id == id;
    assert id in Unknown(s.statuses, step.received);
    assert step.launched != [];
  }

  lemma PickedKnows(c: Config, s: State, polled: seq<ServicePolling>, row: ServiceRow)
    requires ShapeOk(c, s) && HandedOut(c, s, polled) && row in s.services
    requires row.uuid in PolledBatch(Picked(c, s, polled))
    ensures Seen(s, row) in Picked(c, s, polled) && From(c, s) <= row.created
    ensures Eligible(Seen(s, row), c.timelimit, WindowStart(s.now, c.timelimit))
    ensures PolledBatch(Picked(c, s, polled))[row.uuid] == AsService(row)
  {
    var batch := Picked(c, s, polled);
    PolledBatchKeys(batch, row.uuid);
    var p :| p in batch && p.service.uuid == row.uuid && PolledBatch(batch)[row.uuid] == AsService(p.service);
    SelectionMembers(polled, c.pollLimit, c.timelimit, WindowStart(s.now, c.timelimit), p);
    PolledKnows(c, s, polled, row, p);
  }

  lemma RegistersOne(statuses: Statuses, row: ServiceRow, limit: nat)
    requires row.uuid !in statuses && Free(statuses, limit) > 0
    ensures Registers(statuses, map[row.uuid := AsService(row)], limit, [AsService(row)],
                      Kept(statuses) + AsPreparing([AsService(row)]))
  {
    assert Unknown(statuses, map[row.uuid := AsService(row)]) == {row.uuid};
    assert AsService(row) in [AsService(row)];
  }

  /** If the condition holds, the next request can start the service. */
  lemma ThenCanStart(c: Config, s: State, polled: seq<ServicePolling>, row: ServiceRow, t: Time)
    requires ShapeOk(c, s) && s.phase == Idle && HandedOut(c, s, polled) && row in s.services
    requires MayStart(c, s, polled, row) && LaterThan(Picked(c, s, polled), t)
    ensures exists s' :: Leads(c, s, RequestFor(polled, t, row), s')
                         && s'.execs == s.execs + [Exec(row.uuid, V2, Trace(row.uuid), [])]
  {
    var q, batch := RequestFor(polled, t, row), Picked(c, s, polled);
    Reads(c, s, polled);
    Saves(c, s, polled, t);
    assert row.uuid in PolledIds(batch);
    PolledBatchKeys(batch, row.uuid);
    PickedKnows(c, s, polled, row);
    var s3 := Next(c, Selecting(c, s, polled), SaveSelection(t));
    StartsOne(c, s3, row);
    assert Leads(c, s, q, Next(c, s3, Register(q.received, q.launched, q.traces)));
  }

  lemma StartsOne(c: Config, s: State, row: ServiceRow)
    requires s.phase.Answered? && row.uuid in s.phase.services && s.phase.services[row.uuid] == AsService(row)
    requires row.uuid !in s.statuses && Free(s.statuses, c.processLimit) > 0
    ensures var step := Register(map[row.uuid := AsService(row)], [AsService(row)], [Trace(row.uuid)]);
      Enabled(c, s, step) && Next(c, s, step).execs == s.execs + [Exec(row.uuid, V2, Trace(row.uuid), [])]
  {
    RegistersOne(s.statuses, row, c.processLimit);
    assert LegalTrace(row.uuid, Trace(row.uuid)) && Agreeing(Trace(row.uuid));
    assert NewExecs([AsService(row)], [Trace(row.uuid)]) == [Exec(row.uuid, V2, Trace(row.uuid), [])];
  }

  /** Some uninterrupted request starts the service. */
  ghost predicate CanStart(c: Config, s: State, polled: seq<ServicePolling>, id: Uuid) {
    exists q: Request, s' :: q.polled == polled && Leads(c, s, q, s') && id in Ids(q.launched)
  }

  /** Between requests, given what the database will hand out: some uninterrupted request starts the
      service exactly if the condition holds. */
  lemma NextRequestStartsIff(c: Config, s: State, polled: seq<ServicePolling>, row: ServiceRow)
    requires ShapeOk(c, s) && s.phase == Idle && HandedOut(c, s, polled) && row in s.services
    ensures CanStart(c, s, polled, row.uuid) <==> MayStart(c, s, polled, row)
  {
    if CanStart(c, s, polled, row.uuid) {
      var q: Request, s' :| q.polled == polled && Leads(c, s, q, s') && row.uuid in Ids(q.launched);
      OnlyThenStarts(c, s, q, s', row);
    }
    if MayStart(c, s, polled, row) {
      var t := Later(Picked(c, s, polled));
      LaterIsLater(Picked(c, s, polled));
      ThenCanStart(c, s, polled, row, t);
      var q := RequestFor(polled, t, row);
      var s' :| Leads(c, s, q, s') && s'.execs == s.execs + [Exec(row.uuid, V2, Trace(row.uuid), [])];
      assert AsService(row) in q.launched && row.uuid in Ids(q.launched);
    }
  }

  /** So in every run, between requests: a v4 service that has run already may be given a second executor
      by the next request exactly if the condition holds, and then it is one of the exceptions. */
  lemma RunsAgainIff(c: Config, states: seq<State>, steps: seq<Step>, i: nat, polled: seq<ServicePolling>,
                     row: ServiceRow)
    requires IsRun(c, states, steps) && i < |states| && states[i].phase == Idle
    requires HandedOut(c, states[i], polled) && row in states[i].services && Ran(states[i].execs, row.uuid)
    ensures CanStart(c, states[i], polled, row.uuid) <==> MayStart(c, states[i], polled, row)
    ensures MayStart(c, states[i], polled, row) ==> Excused(states[i], row.uuid)
  {
    var s := states[i];
    AlwaysInv(c, states, steps, i);
    NextRequestStartsIff(c, s, polled, row);
    if MayStart(c, s, polled, row) && !Excused(s, row.uuid) {
      OnceFromInv(c, s, row.uuid);
      LatestStaysFinished(c, s, row);
    }
  }
}
