/**
 Whole runs of the deployment store: any sequence of its transactions, in any order, with the
 agents' answers late, repeated, mismatched or missing.
 */
module DeploymentRuns {
  import opened Options
  import opened Deployments
  import opened SettleRules
  import opened RemovalRules
  import opened RepeatRules
  import opened DeploymentSteps
  import opened DeploymentInvariant
  import opened DeploymentPreserved
  import opened DeploymentMoves
  import opened DeploymentSettles

  datatype Op =
    | DoCreateApp(app: Id)
    | DoSaveRevision(app: Id)
    | DoAdopt(id: Id, app: Id, endpoint: Id, project: string, found: seq<Adopted>, preview: bool)
    | DoMapCluster(id: Id, app: Id, endpoint: Id, project: string, namespace: string, granted: bool)
    | DoRemap(instance: Id, bindings: map<Id, string>, reviewed: bool)
    | DoRenamespace(instance: Id, namespace: string, granted: bool)
    | DoRelease(app: Id, instance: Id, confirm: string)
    | DoPlan(id: Id, instance: Id, services: seq<PlannedService>, revision: nat, correlation: string, clean: bool)
    | DoApply(app: Id, id: Id, confirm: string, allowed: bool, active: bool, fits: bool)
    | DoRemove(id: Id, app: Id, instance: Id, confirm: string, listing: seq<Key>, correlation: string, clear: bool)
    | DoPush(cause: Cause, affected: seq<Id>)
    | DoSettle(endpoint: Id, res: Result, readable: bool, storable: bool)
    | DoRefuse(endpoint: Id, id: Id)
    | DoPrune(batch: set<Id>)
    | DoPruneApps(batch: set<Id>)

  function Step(db: Db, op: Op): (db': Db) {
    match op
    case DoCreateApp(app) => CreateApp(db, app)
    case DoSaveRevision(app) => SaveRevision(db, app)
    case DoAdopt(id, app, endpoint, project, found, preview) => Adopt(db, id, app, endpoint, project, found, preview).0
    case DoMapCluster(id, app, endpoint, project, namespace, granted) => MapCluster(db, id, app, endpoint, project, namespace, granted).0
    case DoRemap(instance, bindings, reviewed) => Remap(db, instance, bindings, reviewed).0
    case DoRenamespace(instance, namespace, granted) => Renamespace(db, instance, namespace, granted).0
    case DoRelease(app, instance, confirm) => Release(db, app, instance, confirm).0
    case DoPlan(id, instance, services, revision, correlation, clean) =>
      InsertPlan(db, id, instance, services, revision, correlation, clean).0
    case DoApply(app, id, confirm, allowed, active, fits) => ApplyPlan(db, app, id, confirm, allowed, active, fits).0
    case DoRemove(id, app, instance, confirm, listing, correlation, clear) =>
      RemoveApp(db, id, app, instance, confirm, listing, correlation, clear).0
    case DoPush(cause, affected) => Push(db, cause, affected)
    case DoSettle(endpoint, res, readable, storable) => Settle(db, endpoint, res, readable, storable).0
    case DoRefuse(endpoint, id) => Refuse(db, endpoint, id, REFUSED_DETAIL).0
    case DoPrune(batch) => Prune(db, batch, db.clock - HISTORY_RETENTION)
    case DoPruneApps(batch) => PruneApps(db, batch)
  }

  /** Identifiers are freshly minted. */
  ghost predicate Mints(db: Db, op: Op) {
    match op
    case DoAdopt(id, _, _, _, _, _) => NewInstance(db, id)
    case DoMapCluster(id, _, _, _, _, _) => NewInstance(db, id)
    case DoPlan(id, _, _, _, _, _) => NewRow(db, id)
    case DoRemove(id, _, _, _, _, _, _) => NewRow(db, id)
    case _ => true
  }

  lemma StepKeeps(db: Db, op: Op)
    requires Inv(db) && Past(db) && Mints(db, op)
    ensures Inv(Step(db, op))
  {
    hide RowsOk, LiveNewest, DistinctStamps, Attached, History, Recorded, Standing, Bound, FramesOk, PlansCurrent, Refusals,
      Past, NewInstance, NewRow, Adopt, MapCluster, Remap, Renamespace, Release, InsertPlan, ApplyPlan, RemoveApp, Push, Settle,
      Refuse, Prune, PruneApps;
    match op
    case DoCreateApp(_) =>
    case DoSaveRevision(_) =>
    case DoAdopt(id, app, endpoint, project, found, preview) => AdoptKeeps(db, id, app, endpoint, project, found, preview);
    case DoMapCluster(id, app, endpoint, project, namespace, granted) => MapClusterKeeps(db, id, app, endpoint, project, namespace, granted);
    case DoRemap(instance, bindings, reviewed) => RemapKeeps(db, instance, bindings, reviewed);
    case DoRenamespace(instance, namespace, granted) => RenamespaceKeeps(db, instance, namespace, granted);
    case DoRelease(app, instance, confirm) => ReleaseKeeps(db, app, instance, confirm);
    case DoPlan(id, instance, services, revision, correlation, clean) =>
      InsertPlanKeeps(db, id, instance, services, revision, correlation, clean);
    case DoApply(app, id, confirm, allowed, active, fits) => ApplyKeeps(db, app, id, confirm, allowed, active, fits);
    case DoRemove(id, app, instance, confirm, listing, correlation, clear) =>
      RemoveAppKeeps(db, id, app, instance, confirm, listing, correlation, clear);
    case DoPush(cause, affected) => PushKeeps(db, cause, affected);
    case DoSettle(endpoint, res, readable, storable) => SettleKeeps(db, endpoint, res, readable, storable);
    case DoRefuse(endpoint, id) => RefuseKeeps(db, endpoint, id);
    case DoPrune(batch) => PruneKeeps(db, batch, db.clock - HISTORY_RETENTION);
    case DoPruneApps(batch) => PruneAppsKeeps(db, batch);
  }

  /** One transaction of a run: its clock reading and what it does. */
  datatype Event = Event(now: Stamp, op: Op)

  function At(db: Db, now: Stamp): (db': Db) {
    db.(clock := now)
  }

  function Run(db: Db, events: seq<Event>): (db': Db) {
    if events == [] then db
    else
      var last := events[|events| - 1];
      Step(At(Run(db, events[..|events| - 1]), last.now), last.op)
  }

  /** Every clock reading is later than the one before, and identifiers are fresh when they are minted. */
  ghost predicate Legal(db: Db, events: seq<Event>) {
    events == [] ||
    var front, last := events[..|events| - 1], events[|events| - 1];
    && Legal(db, front)
    && last.now > Run(db, front).clock
    && Mints(At(Run(db, front), last.now), last.op)
  }

  const EMPTY: Db := Db(map[], map[], map[], map[], [], 0, map[], map[])

  lemma EmptyOk()
    ensures Inv(EMPTY)
  {
  }

  /** The invariant holds after every run. */
  lemma {:induction false} RunKeeps(db: Db, events: seq<Event>)
    requires Inv(db) && Legal(db, events)
    ensures Inv(Run(db, events))
  {
    hide Inv, Past, Mints, Step;
    if events != [] {
      var front, last := events[..|events| - 1], events[|events| - 1];
      RunKeeps(db, front);
      Tick(Run(db, front), last.now);
      StepKeeps(At(Run(db, front), last.now), last.op);
    }
  }

  /** The store after a run, at any moment until the next transaction has read the clock. */
  ghost predicate Reachable(db: Db) {
    exists events :: Legal(EMPTY, events) && Run(EMPTY, events).clock <= db.clock && At(Run(EMPTY, events), db.clock) == db
  }

  /** Reachable, the last transaction having read the clock `last`. */
  ghost predicate ReachedAt(db: Db, last: Stamp) {
    exists events :: Legal(EMPTY, events) && Run(EMPTY, events).clock == last <= db.clock && At(Run(EMPTY, events), db.clock) == db
  }

  /** A transaction at a later reading of the clock goes on with the run. */
  lemma StepReaches(db: Db, last: Stamp, op: Op)
    requires ReachedAt(db, last) && last < db.clock && Mints(db, op)
    ensures ReachedAt(Step(db, op), db.clock)
  {
    hide Step, Mints;
    var events :| Legal(EMPTY, events) && Run(EMPTY, events).clock == last <= db.clock && At(Run(EMPTY, events), db.clock) == db;
    var more := events + [Event(db.clock, op)];
    assert more[..|more| - 1] == events && more[|more| - 1] == Event(db.clock, op);
    assert Legal(EMPTY, more) && Run(EMPTY, more) == Step(db, op);
    StepClock(db, op);
    assert At(Run(EMPTY, more), db.clock) == Run(EMPTY, more);
  }

  lemma StepClock(db: Db, op: Op)
    ensures Step(db, op).clock == db.clock
  {
    if op.DoPush? {
      PushRow(db, op.cause, op.affected, "");
    }
  }

  lemma ReachableInv(db: Db)
    requires Reachable(db)
    ensures Inv(db)
  {
    hide Inv, Legal, Run;
    var events :| Legal(EMPTY, events) && Run(EMPTY, events).clock <= db.clock && At(Run(EMPTY, events), db.clock) == db;
    EmptyOk();
    RunKeeps(EMPTY, events);
    if Run(EMPTY, events).clock < db.clock {
      Tick(Run(EMPTY, events), db.clock);
    }
  }

  // ----- What the invariant says -----

  /** At most one row of an instance is planned or applying. */
  lemma OneLiveRow(db: Db, a: Id, b: Id)
    requires Reachable(db) && a in db.rows && b in db.rows
    requires db.rows[a].instance == db.rows[b].instance && db.rows[a].Live() && db.rows[b].Live()
    ensures a == b
  {
    hide Reachable;
    ReachableInv(db);
    assert LiveNewest(db.rows);
  }

  /**
   An instance's revisions are those of its last two succeeded applies, which are also its two
   newest-created ones; the row of the last is in the table and is the newest-created success there.
   */
  lemma RevisionsFollowWins(db: Db, i: Id)
    requires Reachable(db) && i in db.instances
    ensures i in db.wins
    ensures var wins := db.wins[i];
            && db.instances[i].current == (if wins == [] then 0 else wins[|wins| - 1].revision)
            && db.instances[i].previous == (if |wins| < 2 then 0 else wins[|wins| - 2].revision)
            && (forall a, b :: 0 <= a < b < |wins| ==> wins[a].createdAt < wins[b].createdAt)
            && (wins != [] ==> exists id :: NewestWin(db.rows, i, id) && db.rows[id].revision == db.instances[i].current)
    ensures forall id :: id in db.rows && db.rows[id].Won() && db.rows[id].instance == i ==>
              exists k :: 0 <= k < |db.wins[i]| && db.wins[i][k].createdAt == db.rows[id].createdAt && db.wins[i][k].revision == db.rows[id].revision
  {
    hide Reachable;
    ReachableInv(db);
    hide RowsOk, LiveNewest, DistinctStamps, Attached, Bound, FramesOk, PlansCurrent, Refusals;
    var wins := db.wins[i];
    assert Chronicle(wins, db.instances[i], db.clock) && Kept(db.rows, i, wins);
    forall id | id in db.rows && db.rows[id].Won() && db.rows[id].instance == i
      ensures exists k :: 0 <= k < |wins| && wins[k].createdAt == db.rows[id].createdAt && wins[k].revision == db.rows[id].revision
    {
      assert Logged(db.rows[id], db.wins);
    }
    if wins != [] {
      var last := wins[|wins| - 1];
      var id :| id in db.rows && db.rows[id].instance == i && db.rows[id].Won() && db.rows[id].settledAt.Some? && WinOf(db.rows[id]) == last;
      forall n | n in db.rows && db.rows[n].Won() && db.rows[n].instance == i ensures db.rows[n].createdAt <= db.rows[id].createdAt {
        assert Logged(db.rows[n], db.wins);
      }
      assert NewestWin(db.rows, i, id);
    }
  }

  /** The newest-created succeeded apply of the instance still in the table. */
  ghost predicate NewestWin(rows: map<Id, Row>, i: Id, id: Id) {
    && id in rows && rows[id].Won() && rows[id].instance == i
    && forall n :: n in rows && rows[n].Won() && rows[n].instance == i ==> rows[n].createdAt <= rows[id].createdAt
  }

  /** Retention leaves a succeeded row at the instance's current and at its previous revision. */
  lemma RollbackTargetsStay(db: Db, i: Id)
    requires Reachable(db) && i in db.instances
    ensures i in db.wins
    ensures |db.wins[i]| >= 1 ==> HasWin(db.rows, i, db.instances[i].current)
    ensures |db.wins[i]| >= 2 ==> HasWin(db.rows, i, db.instances[i].previous)
  {
    hide Reachable;
    ReachableInv(db);
    hide RowsOk, LiveNewest, DistinctStamps, Attached, Bound, FramesOk, PlansCurrent, Refusals, Recorded;
    assert Chronicle(db.wins[i], db.instances[i], db.clock) && Kept(db.rows, i, db.wins[i]);
  }

  ghost predicate HasWin(rows: map<Id, Row>, i: Id, revision: nat) {
    exists id :: id in rows && rows[id].Won() && rows[id].instance == i && rows[id].revision == revision
  }

  /** A result is accepted only for the newest acted-on row of its instance, and never for a row older than a success. */
  lemma LateAnswerOverwritesNothing(db: Db, endpoint: Id, res: Result, readable: bool, storable: bool)
    requires Reachable(db) && Settle(db, endpoint, res, readable, storable).1.Ok?
    ensures res.deployment in db.rows
    ensures forall n :: n in db.rows && n != res.deployment && db.rows[n].instance == db.rows[res.deployment].instance && db.rows[n].ActedOn() ==>
              db.rows[n].createdAt < db.rows[res.deployment].createdAt
    ensures db.rows[res.deployment].instance in db.instances && db.rows[res.deployment].instance in db.wins
    ensures forall k :: 0 <= k < |db.wins[db.rows[res.deployment].instance]| ==>
              db.wins[db.rows[res.deployment].instance][k].createdAt < db.rows[res.deployment].createdAt
  {
    hide Reachable, SettleApply, SettleRemoval, Record;
    ReachableInv(db);
    hide RowsOk, LiveNewest, DistinctStamps, History, Standing, Recorded, Bound, FramesOk, PlansCurrent, Refusals, Overtaken;
    var id := res.deployment;
    assert AttachedTo(db.rows[id], db.instances);
    NewerThanWins(db, id);
    forall n | n in db.rows && n != id && db.rows[n].instance == db.rows[id].instance && db.rows[n].ActedOn()
      ensures db.rows[n].createdAt < db.rows[id].createdAt
    {
      SettleableIsNewest(db.rows, db.instances, id, n);
    }
  }

  /** A plan that is applied was made after the last result accepted for its instance. */
  lemma AppliedPlanIsCurrent(db: Db, app: Id, id: Id, confirm: string, allowed: bool, active: bool, fits: bool)
    requires Reachable(db) && ApplyPlan(db, app, id, confirm, allowed, active, fits).1.Ok?
    ensures db.rows[id].instance in db.answered ==> db.answered[db.rows[id].instance] < db.rows[id].createdAt
  {
    hide Reachable, FrameBound;
    ReachableInv(db);
    assert Open(db.rows[id], db.clock);
    assert PlansCurrent(db.rows, db.answered, db.clock);
  }

  // ----- Instances in flight -----

  /** The instance has a row in flight, and the step is not that row's own answer. */
  ghost predicate InFlight(db: Db, i: Id, id: Id, op: Op) {
    && i in db.instances && id in db.rows && db.rows[id].instance == i && db.rows[id].state == Applying
    && !(op.DoSettle? && op.res.deployment == id)
  }

  lemma SettleLeavesOthers(db: Db, i: Id, id: Id, endpoint: Id, res: Result, readable: bool, storable: bool)
    requires Inv(db) && id in db.rows && db.rows[id].instance == i && db.rows[id].state == Applying && i in db.instances
    requires res.deployment != id
    ensures i in Settle(db, endpoint, res, readable, storable).0.instances
  {
    hide RowsOk, LiveNewest, DistinctStamps, Attached, History, Recorded, Standing, Bound, FramesOk, PlansCurrent, Refusals, Overtaken,
      SettleApply, SettleRemoval;
    if Settle(db, endpoint, res, readable, storable).1.Ok? && db.rows[res.deployment].instance == i {
      SettleableIsNewest(db.rows, db.instances, res.deployment, id);
      assert Settleable(db.rows, db.instances, id);
      SettleableIsNewest(db.rows, db.instances, id, res.deployment);
    }
  }

  lemma {:induction false} PushKeepsInstances(db: Db, cause: Cause, affected: seq<Id>)
    ensures Push(db, cause, affected).instances == db.instances
  {
    if affected != [] {
      PushKeepsInstances(db, cause, affected[..|affected| - 1]);
    }
  }

  lemma ReleaseLeavesInFlight(db: Db, i: Id, id: Id, app: Id, instance: Id, confirm: string)
    requires Inv(db) && i in db.instances && id in db.rows && db.rows[id].instance == i && db.rows[id].state == Applying
    ensures i in Release(db, app, instance, confirm).0.instances
  {
    hide RowsOk, LiveNewest, DistinctStamps, History, Recorded, Standing, Bound, FramesOk, PlansCurrent, Refusals, HasOpenPlan;
    assert AttachedTo(db.rows[id], db.instances);
    if instance == i && app == db.instances[i].app {
      assert id in OfApp(db.rows, app);
      assert HasApplying(OfApp(db.rows, app), instance);
    }
  }

  lemma PlacingKeepsInstances(db: Db, id: Id, app: Id, endpoint: Id, project: string, found: seq<Adopted>, ns: string, ok: bool)
    ensures db.instances.Keys <= Adopt(db, id, app, endpoint, project, found, ok).0.instances.Keys
    ensures db.instances.Keys <= MapCluster(db, id, app, endpoint, project, ns, ok).0.instances.Keys
  {
    hide Claim, Placed;
  }

  lemma MappingKeepsInstances(db: Db, instance: Id, bindings: map<Id, string>, ns: string, ok: bool)
    ensures db.instances.Keys <= Remap(db, instance, bindings, ok).0.instances.Keys
    ensures db.instances.Keys <= Renamespace(db, instance, ns, ok).0.instances.Keys
  {
    hide HasApplying;
  }

  lemma ApplyKeepsInstances(db: Db, app: Id, id: Id, confirm: string, allowed: bool, active: bool, fits: bool)
    ensures ApplyPlan(db, app, id, confirm, allowed, active, fits).0.instances == db.instances
  {
    hide FrameBound;
  }

  lemma EnteringKeepsInstances(db: Db, op: Op)
    requires op.DoPlan? || op.DoRemove?
    ensures Step(db, op).instances == db.instances
  {
    hide HasApplying, HasOpenPlan, Lists, LastApplyUnknown, DistinctTargets, DropPlans, TargetsOf;
  }

  lemma OtherKeepsInstances(db: Db, op: Op)
    requires op.DoRefuse? || op.DoPrune? || op.DoPruneApps? || op.DoCreateApp? || op.DoSaveRevision?
    ensures Step(db, op).instances == db.instances
  {
    hide Settleable, Prunable, Forgettable;
  }

  lemma PlacingOrMappingIsSafe(db: Db, op: Op, i: Id)
    requires i in db.instances && (op.DoAdopt? || op.DoMapCluster? || op.DoRemap? || op.DoRenamespace?)
    ensures i in Step(db, op).instances
  {
    hide Adopt, MapCluster, Remap, Renamespace;
    match op
    case DoAdopt(n, app, endpoint, project, found, ok) => PlacingKeepsInstances(db, n, app, endpoint, project, found, "", ok);
    case DoMapCluster(n, app, endpoint, project, ns, ok) => PlacingKeepsInstances(db, n, app, endpoint, project, [], ns, ok);
    case DoRemap(instance, bindings, ok) => MappingKeepsInstances(db, instance, bindings, "", ok);
    case DoRenamespace(instance, ns, ok) => MappingKeepsInstances(db, instance, map[], ns, ok);
  }

  lemma WorkingIsSafe(db: Db, op: Op, i: Id)
    requires i in db.instances && (op.DoPush? || op.DoApply? || op.DoPlan? || op.DoRemove?)
    ensures i in Step(db, op).instances
  {
    hide Push, ApplyPlan, InsertPlan, RemoveApp;
    match op
    case DoPush(cause, affected) => PushKeepsInstances(db, cause, affected);
    case DoApply(app, n, confirm, allowed, active, fits) => ApplyKeepsInstances(db, app, n, confirm, allowed, active, fits);
    case DoPlan(_, _, _, _, _, _) => EnteringKeepsInstances(db, op);
    case DoRemove(_, _, _, _, _, _, _) => EnteringKeepsInstances(db, op);
  }

  /** While an instance has a row in flight, only that row's own answer can remove the instance. */
  lemma InFlightIsSafe(db: Db, i: Id, id: Id, op: Op)
    requires Reachable(db) && InFlight(db, i, id, op)
    ensures i in Step(db, op).instances
  {
    ReachableInv(db);
    hide Reachable, Inv, Settle, Release;
    if op.DoSettle? {
      SettleLeavesOthers(db, i, id, op.endpoint, op.res, op.readable, op.storable);
    } else if op.DoRelease? {
      ReleaseLeavesInFlight(db, i, id, op.app, op.instance, op.confirm);
    } else {
      hide Step;
      if op.DoAdopt? || op.DoMapCluster? || op.DoRemap? || op.DoRenamespace? {
        PlacingOrMappingIsSafe(db, op, i);
      } else if op.DoPush? || op.DoApply? || op.DoPlan? || op.DoRemove? {
        WorkingIsSafe(db, op, i);
      } else {
        OtherKeepsInstances(db, op);
      }
    }
  }

  // ----- Answers fit what was sent -----

  /**
   Whatever run led to it, a result accepted for a Docker apply conserves the instance's containers,
   and moves exactly the reported services from the containers they were planned to replace if and
   only if those are in place; they are until some result has been accepted for the instance.
   */
  lemma AnswerMoves(db: Db, endpoint: Id, res: Result, readable: bool, storable: bool)
    requires Reachable(db) && Settle(db, endpoint, res, readable, storable).1.Ok?
    requires db.rows[res.deployment].kind == Apply && db.rows[res.deployment].plan.namespace == ""
    ensures var row := db.rows[res.deployment];
            var rs' := Settle(db, endpoint, res, readable, storable).0.resources;
            && AllPlanned(row.plan, res.services)
            && (ExactlyMoved(db.resources, rs', row.instance, endpoint, row.plan, res.services)
                <==> InPlace(db.resources, endpoint, row.plan, res.services))
            && (Untold(row, db.answered) ==> InPlace(db.resources, endpoint, row.plan, res.services))
            && Conserves(db.resources, rs', row.instance)
  {
    var row := db.rows[res.deployment];
    SentIsDistinct(db, res.deployment);
    if Untold(row, db.answered) {
      BoundWhenSettled(db, res.deployment);
    }
    hide Reachable, Record, SettleRemoval, SettleApply, ExactlyMoved, Conserves, Overtaken, InPlace, DistinctPlan, PlanBound, Untold;
    SettleApplyMoves(db.resources, row.instance, endpoint, row.plan, res);
    SettleApplyConserves(db.resources, row.instance, endpoint, row.plan, res);
    RecordResources(db, res, SettleApply(db.resources, row.instance, endpoint, row.plan, res).value, false);
    if Untold(row, db.answered) {
      PlanBoundInPlace(db.resources, row.instance, endpoint, row.plan, res.services);
    }
  }

  /** The plan of a Docker apply that was sent names distinct services and containers. */
  lemma SentIsDistinct(db: Db, id: Id)
    requires Reachable(db) && id in db.rows && Sent(db.rows[id]) && db.rows[id].plan.namespace == ""
    ensures DistinctPlan(db.rows[id].plan)
  {
    hide Reachable;
    ReachableInv(db);
    assert FrameOk(db.rows[id]);
  }

  lemma RecordResources(db: Db, res: Result, rs: Resources, released: bool)
    requires res.deployment in db.rows
    ensures Record(db, res, rs, released).resources == rs
  {
  }

  /** A row that may take a result, before any result for its instance, still holds its planned containers. */
  lemma BoundWhenSettled(db: Db, id: Id)
    requires Reachable(db) && Settleable(db.rows, db.instances, id)
    requires db.rows[id].kind == Apply && db.rows[id].plan.namespace == "" && Untold(db.rows[id], db.answered)
    ensures DistinctPlan(db.rows[id].plan)
    ensures PlanBound(db.resources, db.rows[id].instance, db.rows[id].endpoint, db.rows[id].plan)
  {
    hide Reachable, Overtaken;
    ReachableInv(db);
    hide RowsOk, LiveNewest, DistinctStamps, History, Recorded, Standing, FramesOk, PlansCurrent, Refusals, DistinctPlan, PlanBound;
    assert AttachedTo(db.rows[id], db.instances);
    assert Sent(db.rows[id]);
    assert FrameBound(db.resources, db.rows[id]);
  }

  /** An apply in flight is always before any result for its instance. */
  lemma InFlightIsUntold(db: Db, id: Id)
    requires Reachable(db) && id in db.rows && db.rows[id].state == Applying
    ensures Untold(db.rows[id], db.answered)
  {
    hide Reachable;
    ReachableInv(db);
    assert Open(db.rows[id], db.clock);
    assert PlansCurrent(db.rows, db.answered, db.clock);
  }

  /** A removal's answer forgets exactly the targets it proves gone, whatever run led to it. */
  lemma RemovalAnswerForgets(db: Db, endpoint: Id, res: Result, readable: bool, storable: bool)
    requires Reachable(db) && Settle(db, endpoint, res, readable, storable).1.Ok?
    requires db.rows[res.deployment].kind == Remove && db.rows[res.deployment].plan.namespace == ""
    ensures var row := db.rows[res.deployment];
            var db' := Settle(db, endpoint, res, readable, storable).0;
            && (row.instance in db'.instances <==> res.outcome != Succeeded)
            && (res.outcome == Succeeded ==> Owned(db'.resources, row.instance) == {} && (row.app in db.apps ==> db'.apps[row.app].removed))
            && (res.outcome == Succeeded ==> forall k :: 0 <= k < |row.plan.containers| ==> OffHost(res.steps, row.plan.containers[k].service))
            && forall k :: 0 <= k < |row.plan.containers| ==>
                 var key := Key(endpoint, row.plan.containers[k].containerId);
                 key in Owned(db.resources, row.instance) ==>
                   (key !in db'.resources <==> OffHost(res.steps, row.plan.containers[k].service))
  {
    var row := db.rows[res.deployment];
    RemovalAnswerPlan(db, res.deployment);
    hide Reachable, DistinctTargets, SettleApply, Overtaken, Owned, OffHost, ExpirePlans;
    RemovalForgetsExactly(db.resources, row.instance, endpoint, row.plan, res);
    RemovalReleases(db.resources, row.instance, endpoint, row.plan, res);
    hide SettleRemoval;
  }

  lemma RemovalReleases(rs: Resources, instance: Id, endpoint: Id, plan: Plan, res: Result)
    requires SettleRemoval(rs, instance, endpoint, plan, res).Ok?
    ensures SettleRemoval(rs, instance, endpoint, plan, res).value.released <==> res.outcome == Succeeded
  {
    hide RemovalFits;
  }

  lemma RemovalAnswerPlan(db: Db, id: Id)
    requires Reachable(db) && Settleable(db.rows, db.instances, id) && db.rows[id].kind == Remove
    ensures DistinctTargets(db.rows[id].plan.containers) && db.rows[id].instance in db.instances
  {
    hide Reachable, Overtaken;
    ReachableInv(db);
    assert FrameOk(db.rows[id]) && AttachedTo(db.rows[id], db.instances);
  }

  // ----- The audit trail -----

  /** The row moved: its state, its detail or its settlement time is another. */
  predicate Stirred(rows: map<Id, Row>, rows': map<Id, Row>, id: Id) {
    && id in rows && id in rows'
    && (rows[id].state != rows'[id].state || rows[id].detail != rows'[id].detail || rows[id].settledAt != rows'[id].settledAt)
  }

  predicate ByServerOrAgent(op: Op) {
    op.DoPush? || op.DoSettle? || op.DoRefuse?
  }

  lemma PushOneRowOnly(db: Db, cause: Cause, last: Id, id: Id)
    ensures var db' := PushOne(db, cause, last);
            var hit := id == last && id in db.rows && Hit(cause, id, db.rows[id], db.clock);
            && db'.clock == db.clock && db'.rows.Keys == db.rows.Keys && db.audit <= db'.audit
            && (id in db.rows ==> db'.rows[id] == if hit then Pushed(cause, db.rows[id], db.clock) else db.rows[id])
            && AuditCount(db'.audit, id) == AuditCount(db.audit, id) + (if hit then 1 else 0)
  {
    hide Hit, Pushed, CauseLabel, AuditCount, LabelCount;
    if last in db.rows && Hit(cause, last, db.rows[last], db.clock) {
      CountOne(db.audit, Audit(System, db.rows[last].kind, last, CauseLabel(cause)), id, NotSent);
    }
  }

  lemma PushedOnce(cause: Cause, id: Id, row: Row, now: Stamp)
    requires Hit(cause, id, row, now)
    ensures !Hit(cause, id, Pushed(cause, row, now), now) && Pushed(cause, row, now).state != row.state
    ensures cause.FrameNotSent? || row.state == Applying
  {
  }

  /** Exactly the selected rows that match move, however often the selection names them. */
  lemma {:induction false} PushRow(db: Db, cause: Cause, affected: seq<Id>, id: Id)
    ensures var db' := Push(db, cause, affected);
            var hit := id in db.rows && id in affected && Hit(cause, id, db.rows[id], db.clock);
            && db'.clock == db.clock && db'.rows.Keys == db.rows.Keys && db.audit <= db'.audit
            && (id in db.rows ==> db'.rows[id] == if hit then Pushed(cause, db.rows[id], db.clock) else db.rows[id])
            && AuditCount(db'.audit, id) == AuditCount(db.audit, id) + (if hit then 1 else 0)
  {
    hide Hit, Pushed, PushOne, AuditCount;
    if affected != [] {
      var front, last := affected[..|affected| - 1], affected[|affected| - 1];
      PushRow(db, cause, front, id);
      assert id in affected <==> id in front || id == last;
      PushOneRowOnly(Push(db, cause, front), cause, last, id);
      if id in db.rows && Hit(cause, id, db.rows[id], db.clock) {
        PushedOnce(cause, id, db.rows[id], db.clock);
      }
    }
  }

  lemma PushAudited(db: Db, cause: Cause, affected: seq<Id>, id: Id)
    ensures AuditCount(Push(db, cause, affected).audit, id)
            == AuditCount(db.audit, id) + (if Stirred(db.rows, Push(db, cause, affected).rows, id) then 1 else 0)
  {
    hide Hit, Pushed, Push, AuditCount;
    PushRow(db, cause, affected, id);
    if id in db.rows && Hit(cause, id, db.rows[id], db.clock) {
      PushedOnce(cause, id, db.rows[id], db.clock);
    }
  }

  lemma RefuseAudited(db: Db, endpoint: Id, n: Id, id: Id)
    ensures var db' := Refuse(db, endpoint, n, REFUSED_DETAIL).0;
            AuditCount(db'.audit, id) == AuditCount(db.audit, id) + (if Stirred(db.rows, db'.rows, id) then 1 else 0)
  {
    hide Overtaken, AuditCount;
    if n in db.rows {
      CountOne(db.audit, Audit(Agent(endpoint), db.rows[n].kind, n, Refused), id, Refused);
    }
  }

  lemma SettleAudited(db: Db, endpoint: Id, res: Result, readable: bool, storable: bool, id: Id)
    requires forall r :: r in db.rows && db.rows[r].settledAt.Some? ==> db.rows[r].settledAt.value < db.clock
    ensures var db' := Settle(db, endpoint, res, readable, storable).0;
            AuditCount(db'.audit, id) == AuditCount(db.audit, id) + (if Stirred(db.rows, db'.rows, id) then 1 else 0)
  {
    hide Overtaken, AuditCount, SettleApply, SettleRemoval;
    if Settle(db, endpoint, res, readable, storable).1.Ok? {
      var row := db.rows[res.deployment];
      SettledRowsDef(db, res);
      SettledRowsPointwise(db, res);
      CountOne(db.audit, Audit(Agent(row.endpoint), row.kind, res.deployment, Reported(res.outcome)), id, Refused);
      hide ExpirePlans, SettledRows;
    }
  }

  /** A move by the server or an agent writes exactly one audit row for the row it moves, and none otherwise. */
  lemma MovesAreAudited(db: Db, now: Stamp, op: Op, id: Id)
    requires Reachable(db) && now > db.clock && ByServerOrAgent(op)
    ensures var db' := Step(At(db, now), op);
            AuditCount(db'.audit, id) == AuditCount(db.audit, id) + (if Stirred(db.rows, db'.rows, id) then 1 else 0)
  {
    hide *;
    SettledBefore(db, now);
    AtKeeps(db, now);
    AuditedAt(At(db, now), op, id);
  }

  lemma AtKeeps(db: Db, now: Stamp)
    ensures At(db, now).rows == db.rows && At(db, now).audit == db.audit && At(db, now).clock == now
  {
  }

  lemma SettledBefore(db: Db, now: Stamp)
    requires Reachable(db) && now > db.clock
    ensures forall r :: r in db.rows && db.rows[r].settledAt.Some? ==> db.rows[r].settledAt.value < now
  {
    ReachableInv(db);
    forall r | r in db.rows && db.rows[r].settledAt.Some? ensures db.rows[r].settledAt.value < now {
      assert RowOk(db.rows[r], db.clock);
    }
  }

  lemma AuditedAt(db: Db, op: Op, id: Id)
    requires ByServerOrAgent(op)
    requires forall r :: r in db.rows && db.rows[r].settledAt.Some? ==> db.rows[r].settledAt.value < db.clock
    ensures AuditCount(Step(db, op).audit, id) == AuditCount(db.audit, id) + (if Stirred(db.rows, Step(db, op).rows, id) then 1 else 0)
  {
    hide Push, Settle, Refuse, AuditCount, Stirred, Adopt, MapCluster, Remap, Renamespace, Release, InsertPlan,
      ApplyPlan, RemoveApp, Prune, PruneApps, CreateApp, SaveRevision;
    match op
    case DoPush(cause, affected) => PushAudited(db, cause, affected, id);
    case DoRefuse(endpoint, n) => RefuseAudited(db, endpoint, n, id);
    case DoSettle(endpoint, res, readable, storable) => SettleAudited(db, endpoint, res, readable, storable, id);
    case _ =>
  }

  /** However often a result that does not fit is sent, refusals outnumber accepted unknown results by at most one. */
  lemma RefusedAtMostOnce(db: Db, id: Id)
    requires Reachable(db)
    ensures LabelCount(db.audit, id, Refused) <= LabelCount(db.audit, id, Reported(Unknown)) + 1
  {
    hide Reachable, LabelCount;
    ReachableInv(db);
    assert Refusals(db.rows, db.audit);
  }

  /**
   A refusal writes exactly one audit row, and leaves the deployment unknown, if and only if the row may
   take a result from this endpoint and is applying or carries another detail; otherwise it changes nothing.
   */
  lemma RefusalWritesExactly(db: Db, endpoint: Id, id: Id, detail: string)
    ensures var db' := Refuse(db, endpoint, id, detail).0;
            var fits := Settleable(db.rows, db.instances, id) && db.rows[id].endpoint == endpoint;
            && (LabelCount(db'.audit, id, Refused) == LabelCount(db.audit, id, Refused) + 1 <==>
                  fits && (db.rows[id].state == Applying || db.rows[id].detail != detail))
            && (LabelCount(db'.audit, id, Refused) == LabelCount(db.audit, id, Refused) ==> db' == db)
            && (fits ==> db'.rows[id].state == Ended(Unknown) && db'.rows[id].detail == detail
                         && db'.rows == db.rows[id := db'.rows[id]])
  {
    hide Overtaken;
    if id in db.rows {
      CountOne(db.audit, Audit(Agent(endpoint), db.rows[id].kind, id, Refused), id, Refused);
    }
    hide LabelCount;
  }

  /** Refusing again changes nothing and writes nothing. */
  lemma RefusingAgainIsIdle(db: Db, endpoint: Id, id: Id, now: Stamp)
    ensures var db' := At(Refuse(db, endpoint, id, REFUSED_DETAIL).0, now);
            Refuse(db', endpoint, id, REFUSED_DETAIL).0 == db'
  {
    hide Overtaken;
  }

  /** What the result's rule does to the containers, and whether it releases the instance. */
  function Ruling(rs: Resources, row: Row, endpoint: Id, res: Result): (r: Reply<Removal>) {
    if row.kind == Remove then SettleRemoval(rs, row.instance, endpoint, row.plan, res)
    else match SettleApply(rs, row.instance, endpoint, row.plan, res)
      case Err(e) => Err(e)
      case Ok(rs') => Ok(Removal(rs', false))
  }

  /** Nothing the result reports keeps it from being accepted a second time. */
  predicate Repeatable(row: Row, res: Result) {
    res.outcome == Unknown && (row.kind == Remove || row.plan.namespace != "" || Permutes(row.plan, row.endpoint, res.services))
  }

  /** The containers a Docker apply's result speaks of are those it was planned to replace. */
  predicate ReportsPlaced(rs: Resources, row: Row, endpoint: Id, res: Result) {
    row.kind == Apply && row.plan.namespace == "" ==> InPlace(rs, endpoint, row.plan, res.services)
  }

  predicate Stays(row: Row, res: Result) {
    row.kind == Apply && row.plan.namespace == "" ==> Unmoved(row.plan, res.services)
  }

  /**
   An accepted result is accepted when it is sent again if and only if its outcome is unknown and it
   is a removal, a cluster's, or reports the very containers its services were planned to replace, in
   whatever order. A repeat that is accepted keeps the set of containers and is audited once more; with
   the planned containers in place it changes none of them, and a Docker apply's repeat means that no
   service moved. A repeat that is refused changes nothing at all.
   */
  lemma ResentResult(db: Db, endpoint: Id, res: Result, now: Stamp)
    requires Reachable(db) && Settle(db, endpoint, res, true, true).1.Ok?
    ensures var row := db.rows[res.deployment];
            var db' := At(Settle(db, endpoint, res, true, true).0, now);
            var again := Settle(db', endpoint, res, true, true);
            && (again.1.Ok? <==> Repeatable(row, res))
            && (again.1.Ok? ==> again.0.resources.Keys == db'.resources.Keys
                                && AuditCount(again.0.audit, res.deployment) == AuditCount(db'.audit, res.deployment) + 1)
            && (again.1.Ok? && ReportsPlaced(db.resources, row, endpoint, res) ==> again.0.resources == db'.resources && Stays(row, res))
            && (again.1.Err? ==> again.0 == db')
  {
    AcceptedByRule(db, endpoint, res);
    ReachableInv(db);
    InstanceStands(db, res.deployment);
    var rule := Ruling(db.resources, db.rows[res.deployment], endpoint, res);
    hide Reachable, Inv, Settle, Ruling, Overtaken, Record, ReportsPlaced, Repeatable, Stays, AuditCount;
    AfterResult(db, res, rule.value.resources, rule.value.released);
    var db' := At(Record(db, res, rule.value.resources, rule.value.released), now);
    if res.outcome == Unknown {
      StillNewest(db, res);
      RulingRepeats(db, endpoint, res);
      RulingOfRow(db'.resources, db.rows[res.deployment], db'.rows[res.deployment], endpoint, res);
      SettlesByRule(db', endpoint, res);
    } else {
      NotRepeatable(db.rows[res.deployment], res);
      KnownIsFinal(db', endpoint, res);
    }
  }

  lemma AcceptedByRule(db: Db, endpoint: Id, res: Result)
    requires Settle(db, endpoint, res, true, true).1.Ok?
    ensures Settleable(db.rows, db.instances, res.deployment)
    ensures var row := db.rows[res.deployment];
            var rule := Ruling(db.resources, row, endpoint, res);
            && row.endpoint == endpoint && (res.requestId == "" || res.requestId == row.correlation) && row.state != Planned
            && rule.Ok? && Settle(db, endpoint, res, true, true).0 == Record(db, res, rule.value.resources, rule.value.released)
  {
    hide SettleApply, SettleRemoval, Overtaken, Record;
  }

  lemma InstanceStands(db: Db, id: Id)
    requires Inv(db) && Settleable(db.rows, db.instances, id)
    ensures db.rows[id].instance in db.instances
  {
    hide Overtaken;
    assert AttachedTo(db.rows[id], db.instances);
  }

  lemma RulingOfRow(rs: Resources, row: Row, row': Row, endpoint: Id, res: Result)
    requires row'.kind == row.kind && row'.instance == row.instance && row'.plan == row.plan
    ensures Ruling(rs, row', endpoint, res) == Ruling(rs, row, endpoint, res)
  {
  }

  lemma NotRepeatable(row: Row, res: Result)
    requires res.outcome != Unknown
    ensures !Repeatable(row, res)
  {
  }

  lemma RulingRepeats(db: Db, endpoint: Id, res: Result)
    requires Reachable(db) && res.deployment in db.rows && Ruling(db.resources, db.rows[res.deployment], endpoint, res).Ok?
    requires db.rows[res.deployment].state != Planned && db.rows[res.deployment].endpoint == endpoint
    requires res.outcome == Unknown
    ensures var row := db.rows[res.deployment];
            var rs' := Ruling(db.resources, row, endpoint, res).value.resources;
            var again := Ruling(rs', row, endpoint, res);
            && !Ruling(db.resources, row, endpoint, res).value.released
            && (again.Ok? <==> Repeatable(row, res))
            && (again.Ok? ==> again.value.resources.Keys == rs'.Keys)
            && (again.Ok? && ReportsPlaced(db.resources, row, endpoint, res) ==> again.value.resources == rs' && Stays(row, res))
  {
    var row := db.rows[res.deployment];
    if row.kind == Remove {
      RemovalRepeats(db.resources, row.instance, endpoint, row.plan, res);
      RemovalReleases(db.resources, row.instance, endpoint, row.plan, res);
      hide SettleRemoval;
    } else if row.plan.namespace == "" {
      SentIsDistinct(db, res.deployment);
      hide Reachable, DistinctPlan, InPlace, Permutes, Unmoved;
      ApplyRepeats(db.resources, row.instance, endpoint, row.plan, res);
      hide SettleApply;
    } else {
      hide Reachable, ApplyFits, InPlace;
    }
  }

  lemma AfterResult(db: Db, res: Result, rs: Resources, released: bool)
    requires res.deployment in db.rows && db.rows[res.deployment].state != Planned
    ensures var db' := Record(db, res, rs, released);
            && db'.rows == SettledRows(db, res) && res.deployment in db'.rows && db'.rows[res.deployment] == SettledRow(db, res)
            && db'.resources == rs && (!released ==> db'.instances.Keys == db.instances.Keys)
  {
    SettledRowsDef(db, res);
    SettledRowsPointwise(db, res);
    hide ExpirePlans, SettledRows;
  }

  lemma KnownIsFinal(db: Db, endpoint: Id, res: Result)
    requires res.deployment in db.rows && res.outcome != Unknown && db.rows[res.deployment].state == Ended(res.outcome)
    ensures Settle(db, endpoint, res, true, true) == (db, Err(NotFound))
  {
  }

  /** A row that may take a result takes it exactly when the rule accepts it. */
  lemma SettlesByRule(db: Db, endpoint: Id, res: Result)
    requires Settleable(db.rows, db.instances, res.deployment) && db.rows[res.deployment].endpoint == endpoint
    requires res.requestId == "" || res.requestId == db.rows[res.deployment].correlation
    ensures var rule := Ruling(db.resources, db.rows[res.deployment], endpoint, res);
            var r := Settle(db, endpoint, res, true, true);
            && (r.1.Ok? <==> rule.Ok?)
            && (r.1.Err? ==> r.0 == db)
            && (r.1.Ok? ==> r.0.resources == rule.value.resources
                            && AuditCount(r.0.audit, res.deployment) == AuditCount(db.audit, res.deployment) + 1)
  {
    var rule := Ruling(db.resources, db.rows[res.deployment], endpoint, res);
    if rule.Ok? {
      RecordCounts(db, res, rule.value.resources, rule.value.released);
    }
    hide Settleable, Record, SettleApply, SettleRemoval, AuditCount;
  }

  lemma RecordCounts(db: Db, res: Result, rs: Resources, released: bool)
    requires res.deployment in db.rows
    ensures var db' := Record(db, res, rs, released);
            db'.resources == rs && AuditCount(db'.audit, res.deployment) == AuditCount(db.audit, res.deployment) + 1
  {
    var row := db.rows[res.deployment];
    CountOne(db.audit, Audit(Agent(row.endpoint), row.kind, res.deployment, Reported(res.outcome)), res.deployment, Refused);
    hide AuditCount, LabelCount, ExpirePlans;
  }

  lemma StillNewest(db: Db, res: Result)
    requires Inv(db) && Settleable(db.rows, db.instances, res.deployment)
    ensures !Overtaken(SettledRows(db, res), res.deployment)
  {
    hide RowsOk, LiveNewest, DistinctStamps, Attached, History, Recorded, Standing, Bound, FramesOk, PlansCurrent, Refusals, SettledRows;
    SettledRowsPointwise(db, res);
    forall n | n in db.rows && n != res.deployment && db.rows[n].instance == db.rows[res.deployment].instance && db.rows[n].ActedOn()
      ensures db.rows[n].createdAt < db.rows[res.deployment].createdAt
    {
      SettleableIsNewest(db.rows, db.instances, res.deployment, n);
    }
  }

  /** Retention reopens an unknown row exactly when it drops every newer row anyone acted on. */
  lemma PruneReopens(db: Db, batch: set<Id>, cutoff: Stamp, id: Id)
    requires id in Prune(db, batch, cutoff).rows
    ensures Settleable(Prune(db, batch, cutoff).rows, db.instances, id) <==>
            || Settleable(db.rows, db.instances, id)
            || (&& db.rows[id].state == Ended(Unknown) && db.rows[id].instance in db.instances
                && forall n :: n in db.rows && db.rows[n].instance == db.rows[id].instance
                               && db.rows[n].createdAt > db.rows[id].createdAt && db.rows[n].ActedOn() ==>
                     n in batch && Prunable(db, n, cutoff))
  {
    hide Prunable;
    var rows := Prune(db, batch, cutoff).rows;
    if Overtaken(rows, id) {
      var n :| n in rows && rows[n].instance == rows[id].instance && rows[n].createdAt > rows[id].createdAt && rows[n].ActedOn();
      assert n in db.rows && !(n in batch && Prunable(db, n, cutoff));
    } else {
      forall n | n in db.rows && db.rows[n].instance == db.rows[id].instance && db.rows[n].createdAt > db.rows[id].createdAt && db.rows[n].ActedOn()
        ensures n in batch && Prunable(db, n, cutoff)
      {
        assert n !in rows;
      }
    }
  }
}
