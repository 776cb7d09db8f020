/** The vocabulary of service delivery: what the manager stores, what the agent runs,
    and how an executor's step updates are read by each side. */
module ServiceModel {

  type Uuid = string

  /** Microseconds since the zero time; the database keeps `datetime(6)`. */
  type Time = nat

  /** Agent-side name of a service version; V1 is the manager's v3, V2 its v4. */
  datatype Version = V1 | V2

  /** What the scheduler looks at in a service. */
  datatype Service = Service(id: Uuid, version: Version, priority: int, created: Time)

  datatype StepStatus = StepPreparing | StepProcessing | StepSuccess | StepFail

  /** The agent's per-service status, in the order of its integer constants. */
  datatype ServiceStatus = Preparing | Start | Processing | Success | Failed

  function Rank(s: ServiceStatus): nat {
    match s
    case Preparing => 1
    case Start => 2
    case Processing => 3
    case Success => 4
    case Failed => 5
  }

  predicate Terminal(s: ServiceStatus) {
    s == Success || s == Failed
  }

  /** The manager's v4 status, in the order of its integer constants. */
  datatype ManagerStatus = Regist | Sent | InProgress | Succeeded | ManagerFailed

  /** `status < Succeeded` in the polling filter. */
  predicate Unfinished(s: ManagerStatus) {
    s == Regist || s == Sent || s == InProgress
  }

  /** One message of an executor. */
  datatype Update = Update(id: Uuid, stepCount: nat, sequence: int, status: StepStatus)

  /** How the agent's scheduler reads an update. */
  function LocalStatus(u: Update): ServiceStatus {
    if u.status == StepFail then Failed
    else if u.stepCount == u.sequence + 1 && u.status == StepSuccess then Success
    else Processing
  }

  /** How the manager's v4 handler reads an update. */
  function ReportedStatus(u: Update): ManagerStatus {
    match u.status
    case StepPreparing => InProgress
    case StepProcessing => InProgress
    case StepSuccess => Succeeded
    case StepFail => ManagerFailed
  }

  /** The grammar of one executor's messages: they concern one service with one step count,
      sequence numbers are in range and never go back, and exactly the last message is
      terminal for the agent. */
  ghost predicate LegalTrace(id: Uuid, trace: seq<Update>) {
    && trace != []
    && (forall j :: 0 <= j < |trace| ==>
          && trace[j].id == id
          && trace[j].stepCount == trace[0].stepCount
          && 0 <= trace[j].sequence < trace[j].stepCount)
    && (forall i, j :: 0 <= i < j < |trace| ==> trace[i].sequence <= trace[j].sequence)
    && (forall j :: 0 <= j < |trace| ==> (Terminal(LocalStatus(trace[j])) <==> j == |trace| - 1))
  }

  /** The status an executor's last message gives its service. */
  function Verdict(trace: seq<Update>): ServiceStatus
    requires trace != []
  {
    LocalStatus(trace[|trace| - 1])
  }

  /** A V2 executor only reports a step as succeeded on its last message, so for V2 the manager
      sees a terminal status exactly when the agent does, and the same one. */
  ghost predicate Agreeing(trace: seq<Update>) {
    forall j :: 0 <= j < |trace| ==>
      && (ReportedStatus(trace[j]) == Succeeded <==> LocalStatus(trace[j]) == Success)
      && (ReportedStatus(trace[j]) == ManagerFailed <==> LocalStatus(trace[j]) == Failed)
  }
}
