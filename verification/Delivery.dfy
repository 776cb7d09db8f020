/** Service delivery as a transition system: one manager, one agent that polls serially and is
    never restarted, and one executor per launched service. A step is one atomic action of one of
    them, so a run is any interleaving. Nothing is assumed about the order in which an executor's
    messages reach the manager or the local map, nor that they reach the manager at all, or once, or
    before the agent has given up on them: its client retries and times out, and the manager saves a
    report under a context of its own. */
module Delivery {
  import opened Wrappers
  import opened ServiceModel
  import opened Scheduling
  import opened PollVault

  datatype Config = Config(cluster: string, processLimit: nat, pollLimit: int, timelimit: int)

  /** When the agent marked a message, had the manager recorded it, and if not, has it since? */
  datatype Report = InTime | Missing | Late

  /** Where one message of an executor is: in the agent's channels, recorded by the manager, given up
      by the agent, or applied to the local status map (after the manager's answer, good or bad). */
  datatype Stage = Emitted | Committed | Lost | Applied(report: Report)

  datatype Exec = Exec(id: Uuid, version: Version, trace: seq<Update>, stages: seq<Stage>)

  /** One polling request of the agent. The manager first reads services, then statuses, then saves
      what it selected; only a request that found no v4 service goes on to the v3 half. `seen` is
      how many v4 services existed when the request read them. */
  datatype Phase =
    | Idle
    | RowsRead(from: int, ltime: int, seen: nat)
    | Selected(batch: seq<ServicePolling>, seen: nat)
    | BetweenHalves(seen: nat)
    | V3Selected(v3batch: seq<Service>)
    | Answered(services: map<Uuid, Service>)

  datatype State = State(
    now: Time,
    services: seq<ServiceRow>,
    v3services: seq<Service>,
    log: seq<StatusRow>,
    offset: Option<int>,
    phase: Phase,
    statuses: Statuses,
    execs: seq<Exec>,
    forgotten: set<Uuid>,   // finished entries dropped by a cleanup while a batch naming them was pending
    overtaken: set<Uuid>,   // older than what the v3 half found, and created since its request began or hidden before
    capped: set<Uuid>       // eligible but beyond the cap of some poll since the offset was last reset
  )

  /** The last two are what a request may still do after the agent has given it up: save a `Sent` record
      for a service it had found to be `Regist`, and save its offset. */
  datatype Step =
    | Create(row: ServiceRow)
    | CreateV3(serv: Service)
    | Tick(t: Time)
    | ReadServices
    | ReadStatuses(polled: seq<ServicePolling>)
    | SaveSelection(t: Time)
    | SelectV3(v3batch: seq<Service>)
    | SaveV3
    | Abort
    | Register(received: map<Uuid, Service>, launched: seq<Service>, traces: seq<seq<Update>>)
    | Emit(k: nat)
    | Commit(k: nat, j: nat, t: Time)
    | LoseCommit(k: nat, j: nat)
    | LateCommit(k: nat, j: nat, t: Time)
    | Apply(k: nat, j: nat)
    | Cleanup
    | Stray(row: ServiceRow, t: Time)
    | StrayOffset(offset: Option<int>)

  // ---------------------------------------------------------------- reading a state

  ghost predicate HasRow(s: State, id: Uuid) {
    exists r :: r in s.services && r.uuid == id
  }

  ghost predicate HasV3Row(s: State, id: Uuid) {
    exists r :: r in s.v3services && r.id == id
  }

  function AsService(row: ServiceRow): Service {
    Service(row.uuid, V2, row.priority, row.created)
  }

  ghost function PolledIds(batch: seq<ServicePolling>): set<Uuid> {
    set p | p in batch :: p.service.uuid
  }

  /** Services a request has picked for the agent and the agent has not yet registered. */
  ghost function Pending(phase: Phase): set<Uuid> {
    match phase
    case Selected(batch, _) => PolledIds(batch)
    case Answered(services) => services.Keys
    case _ => {}
  }

  function PolledBatch(batch: seq<ServicePolling>): map<Uuid, Service> {
    if batch == [] then map[]
    else
      var n := |batch| - 1;
      PolledBatch(batch[..n])[batch[n].service.uuid := AsService(batch[n].service)]
  }

  function V3Batch(batch: seq<Service>): map<Uuid, Service> {
    if batch == [] then map[]
    else
      var n := |batch| - 1;
      V3Batch(batch[..n])[batch[n].id := batch[n]]
  }

  function CreatedTimes(batch: seq<ServicePolling>): (r: seq<Time>)
    ensures |r| == |batch|
  {
    seq(|batch|, i requires 0 <= i < |batch| => batch[i].service.created)
  }

  function V3CreatedTimes(batch: seq<Service>): (r: seq<Time>)
    ensures |r| == |batch|
  {
    seq(|batch|, i requires 0 <= i < |batch| => batch[i].created)
  }

  /** The status rows a poll writes: `Sent` for what was still `Regist`. */
  function SentRecords(batch: seq<ServicePolling>, t: Time): seq<StatusRow> {
    if batch == [] then []
    else
      var n := |batch| - 1;
      var rest := SentRecords(batch[..n], t);
      if batch[n].lastStatus.status == Regist
      then rest + [batch[n].lastStatus.(status := Sent, created := t)] else rest
  }

  /** What is left of a configured poll after the cap. */
  ghost function BeyondCap(polled: seq<ServicePolling>, c: Config, ltime: int): set<Uuid> {
    set p | p in polled && Eligible(p, c.timelimit, ltime)
            && p !in Selection(polled, c.pollLimit, c.timelimit, ltime) :: p.service.uuid
  }

  /** Services the v3 half of a request moves the offset past: older than all that it found, and
      either created since the request began or skipped already when it began. */
  ghost function Overtaken(s: State, seen: nat, v3batch: seq<Service>): set<Uuid>
    requires seen <= |s.services|
  {
    set r | r in s.services && r.created < Oldest(V3CreatedTimes(v3batch))
            && (r in s.services[seen..] || r.uuid in s.overtaken + s.capped) :: r.uuid
  }

  function Finished(statuses: Statuses): set<Uuid> {
    set k | k in statuses && Terminal(statuses[k])
  }

  function NewExecs(launched: seq<Service>, traces: seq<seq<Update>>): (r: seq<Exec>)
    requires |launched| == |traces|
    ensures |r| == |launched|
  {
    seq(|launched|, i requires 0 <= i < |launched| => Exec(launched[i].id, launched[i].version, traces[i], []))
  }

  // ---------------------------------------------------------------- steps

  /** A step of one message of one executor. */
  predicate MessageStep(step: Step) {
    step.Emit? || step.Commit? || step.LoseCommit? || step.LateCommit? || step.Apply?
  }

  ghost predicate HasMessage(s: State, k: nat, j: nat) {
    k < |s.execs| && j < |s.execs[k].stages| && j < |s.execs[k].trace|
  }

  /** A report on a v4 service is dated after the service. */
  ghost predicate Recordable(s: State, e: Exec, t: Time) {
    e.version == V2 ==> exists r :: r in s.services && r.uuid == e.id && r.created < t
  }

  ghost predicate Enabled(c: Config, s: State, step: Step) {
    match step
    case Create(row) =>
      && row.cluster == c.cluster && row.created >= s.now && row.created > 0
      && !HasRow(s, row.uuid) && !HasV3Row(s, row.uuid)
    case CreateV3(serv) =>
      serv.version == V1 && serv.created >= s.now && serv.created > 0 && !HasRow(s, serv.id) && !HasV3Row(s, serv.id)
    case Tick(t) => t >= s.now
    case ReadServices => s.phase.Idle?
    case ReadStatuses(polled) =>
      && s.phase.RowsRead? && s.phase.seen <= |s.services|
      && IsPolling(QueryServices(s.services[..s.phase.seen], c.cluster, Some(s.phase.from)),
                   QueryStatuses(s.log, c.cluster, Some(s.phase.from)), polled)
    case SaveSelection(t) =>
      s.phase.Selected? && forall p :: p in s.phase.batch ==> p.service.created < t
    case SelectV3(v3batch) =>
      && s.phase.BetweenHalves? && s.phase.seen <= |s.services|
      && var ltime := WindowStart(s.now, c.timelimit);
      && forall b :: b in v3batch ==>
           b in s.v3services && b.created > ltime && b.created >= EffectiveOffset(s.offset, ltime)
    case SaveV3 => s.phase.V3Selected?
    case Abort => !s.phase.Idle?
    case Register(received, launched, traces) =>
      && s.phase.Answered?
      && (forall k :: k in received ==> k in s.phase.services && received[k] == s.phase.services[k])
      && |traces| == |launched|
      && Registers(s.statuses, received, c.processLimit, launched, Kept(s.statuses) + AsPreparing(launched))
      && forall i :: 0 <= i < |launched| ==>
           LegalTrace(launched[i].id, traces[i]) && (launched[i].version == V2 ==> Agreeing(traces[i]))
    case Emit(k) => k < |s.execs| && |s.execs[k].stages| < |s.execs[k].trace|
    case Commit(k, j, t) => HasMessage(s, k, j) && s.execs[k].stages[j] == Emitted && Recordable(s, s.execs[k], t)
    case LoseCommit(k, j) => HasMessage(s, k, j) && s.execs[k].stages[j] == Emitted
    case LateCommit(k, j, t) => HasMessage(s, k, j) && s.execs[k].stages[j] != Emitted && Recordable(s, s.execs[k], t)
    case Apply(k, j) => HasMessage(s, k, j) && (s.execs[k].stages[j] == Committed || s.execs[k].stages[j] == Lost)
    case Cleanup => true
    case Stray(row, t) => row in s.services && row.created < t
    case StrayOffset(_) => true
  }

  function SetStage(execs: seq<Exec>, k: nat, j: nat, stage: Stage): (r: seq<Exec>)
    requires k < |execs| && j < |execs[k].stages|
    ensures |r| == |execs|
  {
    execs[k := execs[k].(stages := execs[k].stages[j := stage])]
  }

  /** A message the manager records after all: too late once the agent has marked it. */
  function Recorded(stage: Stage): Stage {
    match stage
    case Lost => Committed
    case Applied(Missing) => Applied(Late)
    case _ => stage
  }

  function StepMaxOf(services: seq<ServiceRow>, id: Uuid): nat {
    if services == [] then 0
    else
      var n := |services| - 1;
      if services[n].uuid == id then services[n].stepMax else StepMaxOf(services[..n], id)
  }

  /** The v4 handler's status row for a message. The number of steps comes from the service's row. */
  function ReportRow(c: Config, services: seq<ServiceRow>, e: Exec, u: Update, t: Time): StatusRow {
    StatusRow(c.cluster, e.id, t, StepMaxOf(services, e.id), u.sequence + 1, ReportedStatus(u))
  }

  ghost function Next(c: Config, s: State, step: Step): State
    requires Enabled(c, s, step)
  {
    match step
    case Create(row) => s.(services := s.services + [row], now := row.created)
    case CreateV3(serv) => s.(v3services := s.v3services + [serv], now := serv.created)
    case Tick(t) => s.(now := t)
    case ReadServices =>
      var ltime := WindowStart(s.now, c.timelimit);
      s.(phase := RowsRead(EffectiveOffset(s.offset, ltime), ltime, |s.services|))
    case ReadStatuses(polled) =>
      s.(phase := Selected(Selection(polled, c.pollLimit, c.timelimit, s.phase.ltime), s.phase.seen),
         capped := s.capped + BeyondCap(polled, c, s.phase.ltime))
    case SaveSelection(t) =>
      var batch := s.phase.batch;
      s.(log := s.log + SentRecords(batch, t),
         offset := Some(Oldest(CreatedTimes(batch))),
         phase := if batch == [] then BetweenHalves(s.phase.seen) else Answered(PolledBatch(batch)))
    case SelectV3(v3batch) =>
      s.(phase := V3Selected(v3batch), overtaken := Overtaken(s, s.phase.seen, v3batch), capped := {})
    case SaveV3 =>
      var batch := s.phase.v3batch;
      s.(offset := Some(Oldest(V3CreatedTimes(batch))),
         phase := if batch == [] then Idle else Answered(V3Batch(batch)))
    case Abort =>
      if s.offset == Some(0) then s.(phase := Idle, overtaken := {}, capped := {}) else s.(phase := Idle)
    case Register(received, launched, traces) =>
      s.(phase := Idle,
         statuses := Kept(s.statuses) + AsPreparing(launched),
         execs := s.execs + NewExecs(launched, traces))
    case Emit(k) =>
      s.(execs := s.execs[k := s.execs[k].(stages := s.execs[k].stages + [Emitted])])
    case Commit(k, j, t) =>
      var e := s.execs[k];
      s.(execs := SetStage(s.execs, k, j, Committed),
         log := if e.version == V2 then s.log + [ReportRow(c, s.services, e, e.trace[j], t)] else s.log)
    case LoseCommit(k, j) => s.(execs := SetStage(s.execs, k, j, Lost))
    case LateCommit(k, j, t) =>
      var e := s.execs[k];
      s.(execs := SetStage(s.execs, k, j, Recorded(e.stages[j])),
         log := if e.version == V2 then s.log + [ReportRow(c, s.services, e, e.trace[j], t)] else s.log)
    case Apply(k, j) =>
      s.(execs := SetStage(s.execs, k, j, Applied(if s.execs[k].stages[j] == Committed then InTime else Missing)),
         statuses := Marked(s.statuses, s.execs[k].trace[j]))
    case Cleanup =>
      s.(statuses := Kept(s.statuses),
         forgotten := s.forgotten + Finished(s.statuses) * Pending(s.phase))
    case Stray(row, t) => s.(log := s.log + [Default(row).(status := Sent, created := t)])
    case StrayOffset(offset) => s.(offset := offset)
  }

  ghost predicate Initial(s: State) {
    && s.services == [] && s.v3services == [] && s.log == [] && s.offset == None
    && s.phase == Idle && s.statuses == map[] && s.execs == []
    && s.forgotten == {} && s.overtaken == {} && s.capped == {}
  }

  /** `states` is what the steps lead through, one after the other. */
  ghost predicate IsRun(c: Config, states: seq<State>, steps: seq<Step>) {
    && |states| == |steps| + 1
    && Initial(states[0])
    && forall i :: 0 <= i < |steps| ==>
         Enabled(c, states[i], steps[i]) && states[i + 1] == Next(c, states[i], steps[i])
  }
}
