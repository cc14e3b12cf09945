/**
 What every transaction of the deployment store keeps. The parts are stated and preserved one by
 one; `Inv` is their conjunction.
 */
module DeploymentInvariant {
  import opened Options
  import opened Deployments
  import opened SettleRules
  import opened RemovalRules
  import opened DeploymentSteps

  // ----- The parts -----

  /** Stamps lie in the past, exactly the never-settled rows are planned, applying or abandoned. */
  ghost predicate RowOk(row: Row, clock: Stamp) {
    && row.createdAt <= clock
    && (row.settledAt.Some? ==> row.createdAt < row.settledAt.value <= clock)
    && (row.Live() ==> row.settledAt.None?)
    && (row.state.Ended? && row.state.outcome != Unknown ==> row.settledAt.Some?)
    && (row.kind == Remove ==> row.state != Planned)
  }

  ghost predicate RowsOk(rows: map<Id, Row>, clock: Stamp) {
    forall id :: id in rows ==> RowOk(rows[id], clock)
  }

  /** A live row is newer than every other row of its instance, so an instance has at most one. */
  ghost predicate LiveNewest(rows: map<Id, Row>) {
    forall a, b :: a in rows && b in rows && a != b && rows[a].instance == rows[b].instance && rows[a].Live() ==>
      rows[b].createdAt < rows[a].createdAt
  }

  ghost predicate DistinctStamps(rows: map<Id, Row>) {
    forall a, b :: a in rows && b in rows && a != b && rows[a].instance == rows[b].instance ==>
      rows[a].createdAt != rows[b].createdAt
  }

  /** A row agrees with its instance while that exists, and it exists while the row is applying. */
  ghost predicate Attached(rows: map<Id, Row>, instances: map<Id, Instance>) {
    forall id :: id in rows ==> AttachedTo(rows[id], instances)
  }

  ghost predicate AttachedTo(row: Row, instances: map<Id, Instance>) {
    && (row.state == Applying ==> row.instance in instances)
    && (row.instance in instances ==>
          row.app == instances[row.instance].app && row.endpoint == instances[row.instance].endpoint)
  }

  function WinOf(row: Row): (w: Win)
    requires row.settledAt.Some?
  {
    Win(row.createdAt, row.revision, row.settledAt.value)
  }

  /** Succeeded applies settle in the order they were created, and the instance names the last two. */
  ghost predicate Chronicle(wins: seq<Win>, i: Instance, clock: Stamp) {
    && (forall a, b :: 0 <= a < b < |wins| ==> wins[a].createdAt < wins[b].createdAt && wins[a].settledAt < wins[b].settledAt)
    && (forall a :: 0 <= a < |wins| ==> wins[a].settledAt <= clock)
    && i.current == (if wins == [] then 0 else wins[|wins| - 1].revision)
    && i.previous == (if |wins| < 2 then 0 else wins[|wins| - 2].revision)
  }

  ghost predicate History(instances: map<Id, Instance>, wins: map<Id, seq<Win>>, clock: Stamp) {
    forall i :: i in instances ==> i in wins && Chronicle(wins[i], instances[i], clock)
  }

  /** Every succeeded apply row of a standing instance is in its history. */
  ghost predicate Recorded(rows: map<Id, Row>, instances: map<Id, Instance>, wins: map<Id, seq<Win>>) {
    forall id :: id in rows && rows[id].Won() && rows[id].instance in instances ==> Logged(rows[id], wins)
  }

  ghost predicate Logged(row: Row, wins: map<Id, seq<Win>>) {
    row.settledAt.Some? && row.instance in wins && WinOf(row) in wins[row.instance]
  }

  ghost predicate Stands(rows: map<Id, Row>, instance: Id, w: Win) {
    exists id :: id in rows && rows[id].instance == instance && rows[id].Won() && rows[id].settledAt.Some? && WinOf(rows[id]) == w
  }

  /** The rows of the last two succeeded applies stay, the second unless the last repeats its revision. */
  ghost predicate Kept(rows: map<Id, Row>, instance: Id, wins: seq<Win>) {
    var n := |wins|;
    && (n > 0 ==> Stands(rows, instance, wins[n - 1]))
    && (n > 1 && wins[n - 2].revision != wins[n - 1].revision ==> Stands(rows, instance, wins[n - 2]))
  }

  ghost predicate Standing(rows: map<Id, Row>, instances: map<Id, Instance>, wins: map<Id, seq<Win>>) {
    forall i :: i in instances && i in wins ==> Kept(rows, i, wins[i])
  }

  /** No result has been accepted for the row's instance since the row was created. */
  predicate Untold(row: Row, answered: map<Id, Stamp>) {
    row.instance in answered ==> answered[row.instance] < row.createdAt
  }

  /** An apply that was sent finds every planned container still adopted until some result is accepted. */
  ghost predicate Bound(rows: map<Id, Row>, instances: map<Id, Instance>, answered: map<Id, Stamp>, rs: Resources) {
    forall id :: id in rows && Sent(rows[id]) && rows[id].instance in instances && Untold(rows[id], answered) ==>
      FrameBound(rs, rows[id])
  }

  predicate Sent(row: Row) {
    row.kind == Apply && row.ActedOn()
  }

  /** What a frame that was sent promised: distinct targets of a removal, distinct services of a Docker apply. */
  ghost predicate FrameOk(row: Row) {
    && (row.kind == Remove ==> DistinctTargets(row.plan.containers))
    && (Sent(row) && row.plan.namespace == "" ==> DistinctPlan(row.plan))
  }

  ghost predicate FramesOk(rows: map<Id, Row>) {
    forall id :: id in rows ==> FrameOk(rows[id])
  }

  /** An open plan, and a row in flight, are newer than the last result accepted for their instance. */
  ghost predicate PlansCurrent(rows: map<Id, Row>, answered: map<Id, Stamp>, clock: Stamp) {
    && (forall i :: i in answered ==> answered[i] <= clock)
    && (forall id :: id in rows && Open(rows[id], clock) ==> Untold(rows[id], answered))
  }

  predicate Open(row: Row, clock: Stamp) {
    row.state == Applying || (row.state == Planned && row.expiresAt > clock)
  }

  /** How many refusals the audit may hold for a row, by its state. */
  function RefusalsAllowed(row: Row): (n: nat) {
    match row.state
    case Planned => 0
    case Applying => 0
    case Ended(o) => if o == Unknown && row.detail != REFUSED_DETAIL then 0 else 1
  }

  ghost predicate Refusals(rows: map<Id, Row>, audit: seq<Audit>) {
    forall id :: LabelCount(audit, id, Refused) <=
      LabelCount(audit, id, Reported(Unknown)) + (if id in rows then RefusalsAllowed(rows[id]) else 1)
  }

  ghost predicate Inv(db: Db) {
    && RowsOk(db.rows, db.clock)
    && LiveNewest(db.rows)
    && DistinctStamps(db.rows)
    && Attached(db.rows, db.instances)
    && History(db.instances, db.wins, db.clock)
    && Recorded(db.rows, db.instances, db.wins)
    && Standing(db.rows, db.instances, db.wins)
    && Bound(db.rows, db.instances, db.answered, db.resources)
    && FramesOk(db.rows)
    && PlansCurrent(db.rows, db.answered, db.clock)
    && Refusals(db.rows, db.audit)
  }

  // ----- Order of rows -----

  /** Rows may go, and rows that stay may stop being live; their instance and stamp never change. */
  ghost predicate Wanes(rows: map<Id, Row>, rows': map<Id, Row>) {
    forall id :: id in rows' ==>
      id in rows && rows'[id].instance == rows[id].instance && rows'[id].createdAt == rows[id].createdAt
      && (rows'[id].Live() ==> rows[id].Live())
  }

  lemma WanesKeepsOrder(rows: map<Id, Row>, rows': map<Id, Row>)
    requires LiveNewest(rows) && DistinctStamps(rows) && Wanes(rows, rows')
    ensures LiveNewest(rows') && DistinctStamps(rows')
  {
  }

  /** A settleable row is the newest acted-on row of its instance. */
  lemma SettleableIsNewest(rows: map<Id, Row>, instances: map<Id, Instance>, id: Id, n: Id)
    requires LiveNewest(rows) && DistinctStamps(rows)
    requires Settleable(rows, instances, id) && n in rows && n != id
    requires rows[n].instance == rows[id].instance && rows[n].ActedOn()
    ensures rows[n].createdAt < rows[id].createdAt
  {
  }
}
