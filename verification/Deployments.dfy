/**
 The rows the deployment lifecycle works on: applications, instances, adopted containers,
 deployments and their audit records, as one value. A transaction is a function from one such
 value to the next (module DeploymentSteps); the class in module DeploymentStore updates its
 fields in place and is proved to compute exactly those functions.
 */
module Deployments {
  import opened Options

  type Id = string
  /** A reading of the server clock. Later readings are larger. */
  type Stamp = int

  datatype Outcome = Succeeded | Failed | Denied | TimedOut | Unknown

  /** `Ended(Unknown)` is the non-terminal state `unknown`; every other `Ended` is terminal. */
  datatype RowState = Planned | Applying | Ended(outcome: Outcome)

  datatype Kind = Apply | Remove

  datatype KubernetesObject = KubernetesObject(namespace: string, name: string)

  /** `pullDigest` is empty for a service pinned to `imageId`; `cluster` is set on a cluster plan. */
  datatype PlannedService = PlannedService(
    name: string,
    containerId: Id,
    imageId: string,
    pullDigest: string,
    cluster: Option<KubernetesObject>)

  datatype RemovalTarget = RemovalTarget(service: string, containerId: Id)

  /** `namespace` is non-empty exactly for a Kubernetes plan or removal. */
  datatype Plan = Plan(
    project: string,
    namespace: string,
    services: seq<PlannedService>,
    containers: seq<RemovalTarget>)

  /** What a service now runs as: a container, or (kind set) a Kubernetes Deployment. */
  datatype Identity = Identity(
    service: string,
    containerId: Id,
    imageId: string,
    createdUnix: int,
    imageDigest: string,
    kind: string,
    namespace: string,
    name: string)

  const KIND_DEPLOYMENT := "Deployment"

  datatype StepName = Precondition | Stop | RemoveStep | Volume | OtherStep

  datatype StepOutcome = Ran(outcome: Outcome) | Skipped

  /** `retained` says the step's detail is the marker of a claim the cluster kept. */
  datatype StepReport = StepReport(service: string, step: StepName, outcome: StepOutcome, retained: bool)

  datatype Result = Result(
    deployment: Id,
    requestId: string,
    outcome: Outcome,
    steps: seq<StepReport>,
    services: seq<Identity>)

  datatype Row = Row(
    app: Id,
    instance: Id,
    endpoint: Id,
    kind: Kind,
    state: RowState,
    revision: nat,
    mappingVersion: nat,
    plan: Plan,
    createdAt: Stamp,
    expiresAt: Stamp,
    deadline: Stamp,
    settledAt: Option<Stamp>,
    detail: string,
    correlation: string)
  {
    /** The partial unique index over deployments admits one such row per instance. */
    predicate Live() {
      state == Planned || state == Applying
    }

    /** A row past planned: someone has acted on the instance through it. */
    predicate ActedOn() {
      state != Planned
    }

    predicate Won() {
      kind == Apply && state == Ended(Succeeded)
    }
  }

  datatype Instance = Instance(
    app: Id,
    endpoint: Id,
    project: string,
    namespace: string,
    mappingVersion: nat,
    current: nat,
    previous: nat)

  /** The primary key of an adopted container: its endpoint and its container ID. */
  datatype Key = Key(endpoint: Id, containerId: Id)

  datatype Resource = Resource(instance: Id, name: string, imageId: string, createdUnix: int, service: string)

  type Resources = map<Key, Resource>

  datatype Application = Application(head: nat, removed: bool)

  /** The vocabulary of the audit row's details: how a deployment row moved. */
  datatype Label = NotSent | Abandoned | Swept | Refused | Reported(outcome: Outcome)

  datatype Actor = System | Agent(endpoint: Id)

  datatype Audit = Audit(actor: Actor, kind: Kind, deployment: Id, move: Label)

  /** One settled, succeeded apply of an instance, in the order the store settled them. */
  datatype Win = Win(createdAt: Stamp, revision: nat, settledAt: Stamp)

  /**
   The whole store. `wins` is the history of succeeded applies per instance and `answered` the
   last time an agent's result was accepted for it; both are bookkeeping the tables do not hold.
   */
  datatype Db = Db(
    apps: map<Id, Application>,
    instances: map<Id, Instance>,
    resources: Resources,
    rows: map<Id, Row>,
    audit: seq<Audit>,
    clock: Stamp,
    wins: map<Id, seq<Win>>,
    answered: map<Id, Stamp>)

  datatype Error =
    | NotFound
    | Invalid
    | Unreadable
    | AdoptionChanged
    | InProgress
    | PlanStands
    | EndpointOffline
    | Blocked
    | Conflict

  datatype Reply<+T> = Ok(value: T) | Err(error: Error)

  /** How many audit rows name deployment `id`. */
  function AuditCount(audit: seq<Audit>, id: Id): (n: nat) {
    if audit == [] then 0
    else AuditCount(audit[..|audit| - 1], id) + (if audit[|audit| - 1].deployment == id then 1 else 0)
  }

  /** How many of them carry `move`. */
  function LabelCount(audit: seq<Audit>, id: Id, move: Label): (n: nat)
    ensures n <= AuditCount(audit, id)
  {
    if audit == [] then 0
    else
      var last := audit[|audit| - 1];
      LabelCount(audit[..|audit| - 1], id, move) + (if last.deployment == id && last.move == move then 1 else 0)
  }
}
