/**
 Every transaction that writes the deployment tables, as a function on the store. Each reads the
 clock once (`db.clock`) and either changes everything it should or returns `db` unchanged.
 */
module DeploymentSteps {
  import opened Options
  import opened Deployments
  import opened SettleRules
  import opened RemovalRules
  import Text

  const MINUTE: Stamp := 60_000_000
  const PLAN_TTL: Stamp := 10 * MINUTE
  const APPLY_DEADLINE: Stamp := 10 * MINUTE
  const SWEEP_SLACK: Stamp := 2 * MINUTE
  const HISTORY_RETENTION: Stamp := 90 * 24 * 60 * MINUTE

  const DISCONNECTED := "the connection ended before a result arrived"
  const OVERDUE := "no result arrived before the deadline"
  const REFUSED_DETAIL := "the host's result did not match the plan; inspect the host"

  // ----- Selecting rows -----

  /** A row of the same instance, created later, that someone has acted on. */
  predicate Overtaken(rows: map<Id, Row>, id: Id)
    requires id in rows
  {
    exists n :: n in rows && rows[n].instance == rows[id].instance && rows[n].createdAt > rows[id].createdAt && rows[n].ActedOn()
  }

  /** The row may still take a result: applying, or unknown with its instance there and not overtaken. */
  predicate Settleable(rows: map<Id, Row>, instances: map<Id, Instance>, id: Id) {
    && id in rows
    && (|| rows[id].state == Applying
        || (rows[id].state == Ended(Unknown) && rows[id].instance in instances && !Overtaken(rows, id)))
  }

  predicate HasApplying(rows: map<Id, Row>, instance: Id) {
    exists id :: id in rows && rows[id].instance == instance && rows[id].state == Applying
  }

  predicate HasOpenPlan(rows: map<Id, Row>, instance: Id, now: Stamp) {
    exists id :: id in rows && rows[id].instance == instance && rows[id].state == Planned && rows[id].expiresAt > now
  }

  function DropPlans(rows: map<Id, Row>, instance: Id): (rows': map<Id, Row>) {
    map id | id in rows && !(rows[id].instance == instance && rows[id].state == Planned) :: rows[id]
  }

  // ----- Applications and instances -----

  function CreateApp(db: Db, app: Id): (db': Db) {
    if app in db.apps then db else db.(apps := db.apps[app := Application(1, false)])
  }

  function SaveRevision(db: Db, app: Id): (db': Db) {
    if app in db.apps then db.(apps := db.apps[app := db.apps[app].(head := db.apps[app].head + 1)]) else db
  }

  datatype Adopted = Adopted(containerId: Id, name: string, imageId: string, createdUnix: int)

  /** Insert the containers in turn; the primary key refuses one that is adopted already. */
  function Claim(rs: Resources, instance: Id, endpoint: Id, found: seq<Adopted>): (r: Reply<Resources>) {
    if found == [] then Ok(rs)
    else
      var c := found[|found| - 1];
      match Claim(rs, instance, endpoint, found[..|found| - 1])
      case Err(e) => Err(e)
      case Ok(mid) =>
        var k := Key(endpoint, c.containerId);
        if k in mid then Err(Conflict) else Ok(mid[k := Resource(instance, c.name, c.imageId, c.createdUnix, "")])
  }

  predicate Placed(instances: map<Id, Instance>, app: Id, endpoint: Id, project: string) {
    exists i :: i in instances && (instances[i].app == app || (instances[i].endpoint == endpoint && instances[i].project == project))
  }

  function AddInstance(db: Db, id: Id, i: Instance, resources: Resources): (db': Db) {
    db.(instances := db.instances[id := i],
        resources := resources,
        apps := if i.app in db.apps then db.apps[i.app := db.apps[i.app].(removed := false)] else db.apps,
        wins := db.wins[id := []])
  }

  /** AdoptApplication: `preview` says the reviewed digest, the typed name and the container limit still hold. */
  function Adopt(db: Db, id: Id, app: Id, endpoint: Id, project: string, found: seq<Adopted>, preview: bool): (r: (Db, Reply<()>)) {
    if app !in db.apps then (db, Err(NotFound))
    else if !preview then (db, Err(AdoptionChanged))
    else if Placed(db.instances, app, endpoint, project) then (db, Err(Conflict))
    else
      match Claim(db.resources, id, endpoint, found)
      case Err(e) => (db, Err(e))
      case Ok(rs) => (AddInstance(db, id, Instance(app, endpoint, project, "", 0, 0, 0), rs), Ok(()))
  }

  /** Placing an application on a cluster: `granted` says the namespace is one the endpoint's manifest grants. */
  function MapCluster(db: Db, id: Id, app: Id, endpoint: Id, project: string, namespace: string, granted: bool): (r: (Db, Reply<()>)) {
    if app !in db.apps then (db, Err(NotFound))
    else if !granted || namespace == "" then (db, Err(Invalid))
    else if Placed(db.instances, app, endpoint, project) then (db, Err(Conflict))
    else (AddInstance(db, id, Instance(app, endpoint, project, namespace, 1, 0, 0), db.resources), Ok(()))
  }

  /** The instance's containers with their service names replaced by `bindings`, from container to service. */
  function Rename(rs: Resources, instance: Id, bindings: map<Id, string>): (rs': Resources) {
    map k | k in rs ::
      if rs[k].instance != instance then rs[k]
      else rs[k].(service := if k.containerId in bindings then bindings[k.containerId] else "")
  }

  /** SetApplicationMapping on a Docker instance: `reviewed` says every identity the operator reviewed still holds. */
  function Remap(db: Db, instance: Id, bindings: map<Id, string>, reviewed: bool): (r: (Db, Reply<()>)) {
    if instance !in db.instances || !reviewed then (db, Err(AdoptionChanged))
    else if HasApplying(db.rows, instance) then (db, Err(InProgress))
    else
      var i := db.instances[instance];
      (db.(instances := db.instances[instance := i.(mappingVersion := i.mappingVersion + 1)],
           resources := Rename(db.resources, instance, bindings)), Ok(()))
  }

  /** Mapping a cluster instance again: it may change namespace only before anything was sent to the old one. */
  function Renamespace(db: Db, instance: Id, namespace: string, granted: bool): (r: (Db, Reply<()>)) {
    if instance !in db.instances then (db, Err(NotFound))
    else if !granted || namespace == "" then (db, Err(Invalid))
    else
      var i := db.instances[instance];
      if i.namespace == "" || (i.namespace != namespace
          && exists id :: id in db.rows && db.rows[id].instance == instance && db.rows[id].ActedOn()) then (db, Err(Conflict))
      else if HasApplying(db.rows, instance) then (db, Err(InProgress))
      else (db.(instances := db.instances[instance := i.(namespace := namespace, mappingVersion := i.mappingVersion + 1)]), Ok(()))
  }

  /** The rows of one application. */
  function OfApp(rows: map<Id, Row>, app: Id): (rows': map<Id, Row>) {
    map id | id in rows && rows[id].app == app :: rows[id]
  }

  /** ReleaseApplication: the instance and its adopted containers go; the host is untouched. */
  function Release(db: Db, app: Id, instance: Id, confirm: string): (r: (Db, Reply<()>)) {
    if app !in db.apps then (db, Err(NotFound))
    else if HasApplying(OfApp(db.rows, app), instance) then (db, Err(InProgress))
    else if HasOpenPlan(OfApp(db.rows, app), instance, db.clock) then (db, Err(PlanStands))
    else if instance !in db.instances || db.instances[instance].app != app || db.instances[instance].project != confirm then
      (db, Err(AdoptionChanged))
    else
      (db.(rows := DropPlans(db.rows, instance),
           instances := db.instances - {instance},
           resources := ForgetAll(db.resources, instance)), Ok(()))
  }

  // ----- Plan, apply, remove -----

  /** PlanDeployment and insertPlan: `clean` says the preflight found no other blocker and the frame fits. */
  function InsertPlan(db: Db, id: Id, instance: Id, services: seq<PlannedService>, revision: nat, correlation: string, clean: bool)
    : (r: (Db, Reply<()>))
  {
    if instance !in db.instances then (db, Err(AdoptionChanged))
    else if !clean || db.instances[instance].mappingVersion < 1 then (db, Err(Blocked))
    else if HasApplying(db.rows, instance) then (db, Err(InProgress))
    else
      var i := db.instances[instance];
      var row := Row(i.app, instance, i.endpoint, Apply, Planned, revision, i.mappingVersion,
                     Plan(i.project, i.namespace, services, []), db.clock, db.clock + PLAN_TTL, 0, None, "", correlation);
      (db.(rows := DropPlans(db.rows, instance)[id := row]), Ok(()))
  }

  /** What the frame of a Docker apply insists on: distinct services replacing containers the instance still holds. */
  predicate FrameBound(rs: Resources, row: Row) {
    row.plan.namespace == "" ==> DistinctPlan(row.plan) && PlanBound(rs, row.instance, row.endpoint, row.plan)
  }

  /** applyDeployment: `allowed` is the policy guard, `active` the endpoint's state, `fits` the rest of the frame. */
  function ApplyPlan(db: Db, app: Id, id: Id, confirm: string, allowed: bool, active: bool, fits: bool): (r: (Db, Reply<()>)) {
    if app !in db.apps then (db, Err(NotFound))
    else if !allowed then (db, Err(Blocked))
    else if id !in db.rows || db.rows[id].app != app then (db, Err(NotFound))
    else
      var row := db.rows[id];
      if row.state == Applying then (db, Err(InProgress))
      else if confirm != row.plan.project then (db, Err(Invalid))
      else if row.kind != Apply || row.state != Planned || db.clock >= row.expiresAt
              || row.revision < 1 || row.revision > db.apps[app].head then (db, Err(AdoptionChanged))
      else if row.instance !in db.instances || db.instances[row.instance].endpoint != row.endpoint
              || db.instances[row.instance].mappingVersion != row.mappingVersion then (db, Err(AdoptionChanged))
      else if !active then (db, Err(EndpointOffline))
      else if row.correlation == "" || db.instances[row.instance].namespace != row.plan.namespace || !FrameBound(db.resources, row) then
        (db, Err(AdoptionChanged))
      else if !fits then (db, Err(Invalid))
      else (db.(rows := db.rows[id := row.(state := Applying, deadline := db.clock + APPLY_DEADLINE)]), Ok(()))
  }

  const UNMAPPED := "unmapped-"

  function TargetOf(rs: Resources, k: Key): (t: RemovalTarget)
    requires k in rs
  {
    var id := k.containerId;
    RemovalTarget(if rs[k].service != "" then rs[k].service
                  else UNMAPPED + id[..if |id| < 12 then |id| else 12], id)
  }

  /** `listing` is the instance's containers as the query lists them: all of them, once each. */
  predicate Lists(rs: Resources, instance: Id, endpoint: Id, listing: seq<Key>) {
    && (forall i :: 0 <= i < |listing| ==> listing[i] in rs && rs[listing[i]].instance == instance && listing[i].endpoint == endpoint)
    && (forall i, j :: 0 <= i < j < |listing| ==> listing[i] != listing[j])
    && (forall k :: k in rs && rs[k].instance == instance && k.endpoint == endpoint ==> k in listing)
  }

  function TargetsOf(rs: Resources, listing: seq<Key>): (ts: seq<RemovalTarget>)
    requires forall i :: 0 <= i < |listing| ==> listing[i] in rs
    ensures |ts| == |listing|
    ensures forall i :: 0 <= i < |ts| ==> ts[i] == TargetOf(rs, listing[i])
  {
    if listing == [] then []
    else TargetsOf(rs, listing[..|listing| - 1]) + [TargetOf(rs, listing[|listing| - 1])]
  }

  /** The instance's last acted-on row is an apply nobody knows the outcome of. */
  predicate LastApplyUnknown(rows: map<Id, Row>, instance: Id) {
    exists id ::
      && id in rows && rows[id].instance == instance && rows[id].kind == Apply && rows[id].state == Ended(Unknown)
      && !Overtaken(rows, id)
  }

  /**
   RemoveApplication. `clear` says no migration is open, the endpoint is active, a fresh inventory
   shows no container of the project outside the adopted ones, and the request's sizes and names are valid.
   */
  function RemoveApp(db: Db, id: Id, app: Id, instance: Id, confirm: string, listing: seq<Key>, correlation: string, clear: bool)
    : (r: (Db, Reply<()>))
  {
    if app !in db.apps then (db, Err(NotFound))
    else if instance !in db.instances || db.instances[instance].app != app then (db, Err(AdoptionChanged))
    else
      var i := db.instances[instance];
      if confirm != i.project then (db, Err(Invalid))
      else if HasApplying(db.rows, instance) then (db, Err(InProgress))
      else if HasOpenPlan(db.rows, instance, db.clock) then (db, Err(PlanStands))
      else if i.namespace == "" && (listing == [] || !Lists(db.resources, instance, i.endpoint, listing)) then (db, Err(AdoptionChanged))
      else
        var targets := if i.namespace == "" then TargetsOf(db.resources, listing) else [];
        if LastApplyUnknown(db.rows, instance) then (db, Err(Blocked))
        else if !clear then (db, Err(Blocked))
        else if !DistinctTargets(targets) then (db, Err(Invalid))
        else
          var row := Row(app, instance, i.endpoint, Remove, Applying, db.apps[app].head, i.mappingVersion,
                         Plan(i.project, i.namespace, [], targets), db.clock, db.clock + APPLY_DEADLINE,
                         db.clock + APPLY_DEADLINE, None, "", correlation);
          (db.(rows := DropPlans(db.rows, instance)[id := row]), Ok(()))
  }

  // ----- Moves the server makes on its own -----

  datatype Cause =
    | FrameNotSent(id: Id, detail: string)
    | Disconnect(endpoint: Id)
    | PastDeadline

  predicate Hit(cause: Cause, id: Id, row: Row, now: Stamp) {
    match cause
    case FrameNotSent(i, _) => id == i && (row.state == Applying || row.state == Ended(Unknown))
    case Disconnect(endpoint) => row.endpoint == endpoint && row.state == Applying
    case PastDeadline => row.state == Applying && row.deadline < now - SWEEP_SLACK
  }

  function Pushed(cause: Cause, row: Row, now: Stamp): (row': Row) {
    match cause
    case FrameNotSent(_, detail) => row.(state := Ended(Failed), detail := detail, settledAt := Some(now))
    case Disconnect(_) => row.(state := Ended(Unknown), detail := DISCONNECTED)
    case PastDeadline => row.(state := Ended(Unknown), detail := OVERDUE)
  }

  function CauseLabel(cause: Cause): (l: Label) {
    match cause
    case FrameNotSent(_, _) => NotSent
    case Disconnect(_) => Abandoned
    case PastDeadline => Swept
  }

  function PushOne(db: Db, cause: Cause, id: Id): (db': Db) {
    if id in db.rows && Hit(cause, id, db.rows[id], db.clock) then
      db.(rows := db.rows[id := Pushed(cause, db.rows[id], db.clock)],
          audit := db.audit + [Audit(System, db.rows[id].kind, id, CauseLabel(cause))])
    else db
  }

  /** systemTransition: `affected` is the rows the filter selected, in the order the query returned them. */
  function Push(db: Db, cause: Cause, affected: seq<Id>): (db': Db) {
    if affected == [] then db
    else PushOne(Push(db, cause, affected[..|affected| - 1]), cause, affected[|affected| - 1])
  }

  // ----- Results from agents -----

  function ExpirePlans(rows: map<Id, Row>, instance: Id, after: Stamp, now: Stamp): (rows': map<Id, Row>) {
    map id | id in rows ::
      if rows[id].instance == instance && rows[id].state == Planned && rows[id].createdAt > after then rows[id].(expiresAt := now)
      else rows[id]
  }

  /** The instance after a succeeded apply of `revision`. */
  function Advance(i: Instance, revision: nat): (i': Instance) {
    i.(previous := i.current, current := revision)
  }

  /** The store once a fitting result is written: row, revisions, newer plans, history and audit together. */
  function Record(db: Db, res: Result, resources: Resources, released: bool): (db': Db)
    requires res.deployment in db.rows
  {
    var row := db.rows[res.deployment];
    var won := row.kind == Apply && res.outcome == Succeeded;
    var settled := row.(state := Ended(res.outcome), detail := "", settledAt := Some(db.clock));
    db.(rows := ExpirePlans(db.rows[res.deployment := settled], row.instance, row.createdAt, db.clock),
        resources := resources,
        instances :=
          if released then db.instances - {row.instance}
          else if won && row.instance in db.instances then
            db.instances[row.instance := Advance(db.instances[row.instance], row.revision)]
          else db.instances,
        apps := if released && row.app in db.apps then db.apps[row.app := db.apps[row.app].(removed := true)] else db.apps,
        wins :=
          if won then
            db.wins[row.instance := (if row.instance in db.wins then db.wins[row.instance] else []) + [Win(row.createdAt, row.revision, db.clock)]]
          else db.wins,
        answered := db.answered[row.instance := db.clock],
        audit := db.audit + [Audit(Agent(row.endpoint), row.kind, res.deployment, Reported(res.outcome))])
  }

  /** SettleDeployment: `readable` is the result's own validation, `storable` its size bound. */
  function Settle(db: Db, endpoint: Id, res: Result, readable: bool, storable: bool): (r: (Db, Reply<()>)) {
    if !readable then (db, Err(Unreadable))
    else if !storable then (db, Err(Invalid))
    else if !Settleable(db.rows, db.instances, res.deployment) || db.rows[res.deployment].endpoint != endpoint then (db, Err(NotFound))
    else
      var row := db.rows[res.deployment];
      if res.requestId != "" && res.requestId != row.correlation then (db, Err(Invalid))
      else if row.kind == Remove then
        match SettleRemoval(db.resources, row.instance, endpoint, row.plan, res)
        case Err(e) => (db, Err(e))
        case Ok(r) => (Record(db, res, r.resources, r.released), Ok(()))
      else
        match SettleApply(db.resources, row.instance, endpoint, row.plan, res)
        case Err(e) => (db, Err(e))
        case Ok(rs) => (Record(db, res, rs, false), Ok(()))
  }

  /** RefuseDeploymentResult: a result that does not fit leaves the row unknown, and a repeat leaves it alone. */
  function Refuse(db: Db, endpoint: Id, id: Id, detail: string): (r: (Db, Reply<()>)) {
    if !Settleable(db.rows, db.instances, id) || db.rows[id].endpoint != endpoint then (db, Err(NotFound))
    else
      var row := db.rows[id];
      if row.state == Applying || row.detail != detail then
        (db.(rows := db.rows[id := row.(state := Ended(Unknown), detail := detail)],
             audit := db.audit + [Audit(Agent(endpoint), row.kind, id, Refused)]), Ok(()))
      else (db, Ok(()))
  }

  // ----- Retention -----

  /** The latest succeeded apply of a revision the instance names as current or previous. */
  predicate RollbackTarget(db: Db, id: Id)
    requires id in db.rows
  {
    var d := db.rows[id];
    && d.Won() && d.settledAt.Some?
    && d.instance in db.instances
    && (d.revision == db.instances[d.instance].current || d.revision == db.instances[d.instance].previous)
    && !exists n :: n in db.rows && db.rows[n].instance == d.instance && db.rows[n].revision == d.revision && db.rows[n].Won()
                    && db.rows[n].settledAt.Some?
                    && (db.rows[n].settledAt.value > d.settledAt.value
                        || (db.rows[n].settledAt.value == d.settledAt.value && Text.Less(id, n)))
  }

  /** Prune may delete the row: settled before `cutoff`, no rollback target, its application not removed. */
  predicate Prunable(db: Db, id: Id, cutoff: Stamp) {
    && id in db.rows
    && db.rows[id].settledAt.Some? && db.rows[id].settledAt.value < cutoff
    && !RollbackTarget(db, id)
    && !(db.rows[id].app in db.apps && db.apps[db.rows[id].app].removed)
  }

  /** Prune deletes a batch of prunable rows; a row an open validation still needs is left out of the batch. */
  function Prune(db: Db, batch: set<Id>, cutoff: Stamp): (db': Db) {
    db.(rows := map id | id in db.rows && !(id in batch && Prunable(db, id, cutoff)) :: db.rows[id])
  }

  predicate Forgettable(db: Db, app: Id) {
    app in db.apps && db.apps[app].removed && forall i :: i in db.instances ==> db.instances[i].app != app
  }

  /** pruneRemovedApplications: removed applications with no instance go with their history. */
  function PruneApps(db: Db, batch: set<Id>): (db': Db) {
    db.(apps := map app | app in db.apps && !(app in batch && Forgettable(db, app)) :: db.apps[app],
        rows := map id | id in db.rows && !(db.rows[id].app in batch && Forgettable(db, db.rows[id].app)) :: db.rows[id])
  }
}
