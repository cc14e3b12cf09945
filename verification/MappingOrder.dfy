/** A plan is applied to the mapping it was made for: what every transaction does to mapping versions. */
module MappingOrder {
  import opened Options
  import opened Deployments
  import opened SettleRules
  import opened RemovalRules
  import opened DeploymentSteps
  import opened DeploymentPreserved
  import opened DeploymentMoves
  import opened DeploymentRuns
  import opened DeploymentTables
  import opened InstanceTables

  /** The step is a mapping of instance `i` that the store takes. */
  predicate Maps(db: Db, op: Op, i: Id) {
    match op
    case DoRemap(instance, bindings, reviewed) => instance == i && Remap(db, instance, bindings, reviewed).1.Ok?
    case DoRenamespace(instance, namespace, granted) => instance == i && Renamespace(db, instance, namespace, granted).1.Ok?
    case _ => false
  }

  /** The row is as old, and as mapped, as it was. */
  predicate SamePlan(row: Row, row': Row) {
    row'.instance == row.instance && row'.createdAt == row.createdAt && row'.mappingVersion == row.mappingVersion
  }

  /** Rows keep their mapping version; a new row is stamped now and has its instance's. */
  ghost predicate RowsKeepPlans(db: Db, rows: map<Id, Row>) {
    forall id :: id in rows ==>
      || (id in db.rows && SamePlan(db.rows[id], rows[id]))
      || (rows[id].createdAt == db.clock && rows[id].instance in db.instances
          && rows[id].mappingVersion == db.instances[rows[id].instance].mappingVersion)
  }

  /** Versions only grow, and a new instance is no row's. */
  ghost predicate VersionsGrow(db: Db, instances: map<Id, Instance>) {
    forall i :: i in instances ==>
      || (i in db.instances && db.instances[i].mappingVersion <= instances[i].mappingVersion)
      || (i !in db.instances && forall id :: id in db.rows ==> db.rows[id].instance != i)
  }

  lemma MappingsGrow(db: Db, op: Op, i: Id)
    requires Maps(db, op, i)
    ensures VersionsGrow(db, Step(db, op).instances) && RowsKeepPlans(db, Step(db, op).rows)
    ensures i in db.instances && i in Step(db, op).instances
    ensures Step(db, op).instances[i].mappingVersion == db.instances[i].mappingVersion + 1
  {
    hide HasApplying, Rename;
  }

  lemma PlacingKeepsPlans(db: Db, op: Op)
    requires (op.DoAdopt? || op.DoMapCluster?) && Mints(db, op)
    ensures VersionsGrow(db, Step(db, op).instances) && RowsKeepPlans(db, Step(db, op).rows)
  {
    StandingStill(db);
    hide Claimed, Unclaimed, RowsKeepPlans;
    if op.DoAdopt? {
      AdoptExactly(db, op.id, op.app, op.endpoint, op.project, op.found, op.preview);
      NewcomerGrows(db, op.id, Instance(op.app, op.endpoint, op.project, "", 0, 0, 0));
      hide Adopt, VersionsGrow;
    } else {
      MapClusterExactly(db, op.id, op.app, op.endpoint, op.project, op.namespace, op.granted);
      NewcomerGrows(db, op.id, Instance(op.app, op.endpoint, op.project, op.namespace, 1, 0, 0));
      hide MapCluster, VersionsGrow;
    }
  }

  lemma NewcomerGrows(db: Db, id: Id, i: Instance)
    requires NewInstance(db, id)
    ensures VersionsGrow(db, db.instances[id := i])
  {
  }

  lemma EnteringKeepsPlans(db: Db, id: Id, row: Row)
    requires row.createdAt == db.clock && row.instance in db.instances && row.mappingVersion == db.instances[row.instance].mappingVersion
    ensures RowsKeepPlans(db, DropPlans(db.rows, row.instance)[id := row])
  {
  }

  lemma ChangingKeepsPlans(db: Db, id: Id, row: Row)
    requires id in db.rows && SamePlan(db.rows[id], row)
    ensures RowsKeepPlans(db, db.rows[id := row])
  {
  }

  lemma PlanningKeepsPlans(db: Db, op: Op)
    requires op.DoPlan?
    ensures VersionsGrow(db, Step(db, op).instances) && RowsKeepPlans(db, Step(db, op).rows)
  {
    StandingStill(db);
    hide HasApplying, DropPlans, RowsKeepPlans, VersionsGrow;
    if InsertPlan(db, op.id, op.instance, op.services, op.revision, op.correlation, op.clean).1.Ok? {
      EnteringKeepsPlans(db, op.id, Step(db, op).rows[op.id]);
    }
  }

  lemma ApplyingKeepsPlans(db: Db, op: Op)
    requires op.DoApply?
    ensures VersionsGrow(db, Step(db, op).instances) && RowsKeepPlans(db, Step(db, op).rows)
  {
    StandingStill(db);
    ApplyExactly(db, op.app, op.id, op.confirm, op.allowed, op.active, op.fits);
    hide ApplyPlan, PlanStanding, Adopts, RowsKeepPlans, VersionsGrow;
    if ApplyPlan(db, op.app, op.id, op.confirm, op.allowed, op.active, op.fits).1.Ok? {
      ChangingKeepsPlans(db, op.id, Step(db, op).rows[op.id]);
    }
  }

  lemma RemovingKeepsPlans(db: Db, op: Op)
    requires op.DoRemove?
    ensures VersionsGrow(db, Step(db, op).instances) && RowsKeepPlans(db, Step(db, op).rows)
  {
    StandingStill(db);
    hide HasApplying, HasOpenPlan, TargetsOf, LastApplyUnknown, DistinctTargets, Lists, DropPlans, RowsKeepPlans, VersionsGrow;
    if RemoveApp(db, op.id, op.app, op.instance, op.confirm, op.listing, op.correlation, op.clear).1.Ok? {
      EnteringKeepsPlans(db, op.id, Step(db, op).rows[op.id]);
    }
  }

  lemma MappingKeepsPlans(db: Db, op: Op)
    requires op.DoRelease? || op.DoRemap? || op.DoRenamespace?
    ensures VersionsGrow(db, Step(db, op).instances) && RowsKeepPlans(db, Step(db, op).rows)
  {
    if op.DoRelease? {
      ReleaseExactly(db, op.app, op.instance, op.confirm);
      hide Release;
    } else if op.DoRemap? {
      RemapExactly(db, op.instance, op.bindings, op.reviewed);
      hide Remap, Busy;
    } else {
      RenamespaceExactly(db, op.instance, op.namespace, op.granted);
      hide Renamespace, Busy;
    }
  }

  lemma PushKeepsPlans(db: Db, cause: Cause, affected: seq<Id>)
    ensures RowsKeepPlans(db, Push(db, cause, affected).rows) && Push(db, cause, affected).instances == db.instances
  {
    PushKeepsInstances(db, cause, affected);
    forall id | id in Push(db, cause, affected).rows
      ensures id in db.rows && SamePlan(db.rows[id], Push(db, cause, affected).rows[id])
    {
      PushRow(db, cause, affected, id);
    }
  }

  lemma RecordKeepsPlans(db: Db, res: Result, rs: Resources, released: bool)
    requires res.deployment in db.rows
    ensures VersionsGrow(db, Record(db, res, rs, released).instances) && RowsKeepPlans(db, Record(db, res, rs, released).rows)
  {
  }

  lemma AnsweringKeepsPlans(db: Db, op: Op)
    requires op.DoSettle? || op.DoRefuse?
    ensures VersionsGrow(db, Step(db, op).instances) && RowsKeepPlans(db, Step(db, op).rows)
  {
    hide Overtaken, SettleApply, SettleRemoval, Record, VersionsGrow, RowsKeepPlans;
    if op.DoSettle? {
      if op.res.deployment in db.rows {
        forall rs, released { RecordKeepsPlans(db, op.res, rs, released); }
      }
      StandingStill(db);
    } else {
      RefusingKeepsPlans(db, op.endpoint, op.id);
    }
  }

  lemma StandingStill(db: Db)
    ensures VersionsGrow(db, db.instances) && RowsKeepPlans(db, db.rows)
  {
  }

  lemma RefusingKeepsPlans(db: Db, endpoint: Id, id: Id)
    ensures var db' := Refuse(db, endpoint, id, REFUSED_DETAIL).0;
            VersionsGrow(db, db'.instances) && RowsKeepPlans(db, db'.rows)
  {
    StandingStill(db);
    hide Overtaken, RowsKeepPlans, VersionsGrow;
    if id in db.rows {
      ChangingKeepsPlans(db, id, db.rows[id].(state := Ended(Unknown), detail := REFUSED_DETAIL));
    }
  }

  lemma PruningKeepsPlans(db: Db, op: Op)
    requires op.DoCreateApp? || op.DoSaveRevision? || op.DoPrune? || op.DoPruneApps?
    ensures VersionsGrow(db, Step(db, op).instances) && RowsKeepPlans(db, Step(db, op).rows)
  {
    hide Prunable, Forgettable;
  }

  lemma StepKeepsPlans(db: Db, op: Op)
    requires Mints(db, op)
    ensures VersionsGrow(db, Step(db, op).instances) && RowsKeepPlans(db, Step(db, op).rows)
  {
    if op.DoPush? {
      PushKeepsPlans(db, op.cause, op.affected);
      StandingStill(db);
    } else {
      hide Step, VersionsGrow, RowsKeepPlans;
      if op.DoAdopt? || op.DoMapCluster? {
        PlacingKeepsPlans(db, op);
      } else if op.DoSettle? || op.DoRefuse? {
        AnsweringKeepsPlans(db, op);
      } else if op.DoCreateApp? || op.DoSaveRevision? || op.DoPrune? || op.DoPruneApps? {
        PruningKeepsPlans(db, op);
      } else if op.DoRemove? {
        RemovingKeepsPlans(db, op);
      } else if op.DoApply? {
        ApplyingKeepsPlans(db, op);
      } else if op.DoPlan? {
        PlanningKeepsPlans(db, op);
      } else {
        MappingKeepsPlans(db, op);
      }
    }
  }

  /** No row is of a later mapping than its instance. */
  ghost predicate MappedInTime(db: Db) {
    forall id :: id in db.rows && db.rows[id].instance in db.instances ==>
      db.rows[id].mappingVersion <= db.instances[db.rows[id].instance].mappingVersion
  }

  /** A row older than `since` is of an earlier mapping than instance `i`. */
  ghost predicate Outdated(db: Db, i: Id, since: Stamp) {
    i in db.instances ==>
      forall id :: id in db.rows && db.rows[id].instance == i && db.rows[id].createdAt < since ==>
        db.rows[id].mappingVersion < db.instances[i].mappingVersion
  }

  lemma StepInTime(db: Db, op: Op, i: Id, since: Stamp)
    requires Mints(db, op) && MappedInTime(db) && since <= db.clock
    ensures MappedInTime(Step(db, op))
    ensures Outdated(db, i, since) ==> Outdated(Step(db, op), i, since)
    ensures Maps(db, op, i) && (forall id :: id in db.rows ==> db.rows[id].createdAt < db.clock) ==> Outdated(Step(db, op), i, db.clock)
  {
    StepKeepsPlans(db, op);
    if Maps(db, op, i) {
      MappingsGrow(db, op, i);
    }
    hide Step, Mints, Maps;
  }

  /** The event of the run that maps instance `i`. */
  ghost predicate MapsAt(events: seq<Event>, r: nat, i: Id)
    requires r < |events|
  {
    Maps(At(Run(EMPTY, events[..r]), events[r].now), events[r].op, i)
  }

  lemma AtIsSame(db: Db, now: Stamp, i: Id, since: Stamp)
    ensures MappedInTime(At(db, now)) <==> MappedInTime(db)
    ensures Outdated(At(db, now), i, since) <==> Outdated(db, i, since)
  {
  }

  lemma {:induction false} RunInTime(events: seq<Event>)
    requires Legal(EMPTY, events)
    ensures MappedInTime(Run(EMPTY, events))
    ensures forall r, i :: 0 <= r < |events| && MapsAt(events, r, i) ==> Outdated(Run(EMPTY, events), i, events[r].now)
    ensures forall r :: 0 <= r < |events| ==> events[r].now <= Run(EMPTY, events).clock
    ensures forall id :: id in Run(EMPTY, events).rows ==> Run(EMPTY, events).rows[id].createdAt <= Run(EMPTY, events).clock
  {
    hide MappedInTime, Outdated, Mints, Step;
    if events == [] {
      assert MappedInTime(EMPTY) by { EmptyInTime(); }
    } else {
      var front, last := events[..|events| - 1], events[|events| - 1];
      RunInTime(front);
      var db := At(Run(EMPTY, front), last.now);
      StepClock(db, last.op);
      RowsInTime(db, last.op);
      forall r, i | 0 <= r < |events| && MapsAt(events, r, i) ensures Outdated(Run(EMPTY, events), i, events[r].now) {
        if r < |front| {
          assert front[..r] == events[..r] && front[r] == events[r];
          assert MapsAt(front, r, i);
          AtIsSame(Run(EMPTY, front), last.now, i, events[r].now);
          StepInTime(db, last.op, i, events[r].now);
        } else {
          assert events[..r] == front;
          AtIsSame(Run(EMPTY, front), last.now, i, last.now);
          StepInTime(db, last.op, i, last.now);
        }
      }
      AtIsSame(Run(EMPTY, front), last.now, "", last.now);
      StepInTime(db, last.op, "", last.now);
    }
  }

  lemma EmptyInTime()
    ensures MappedInTime(EMPTY)
  {
  }

  lemma RowsInTime(db: Db, op: Op)
    requires Mints(db, op) && forall id :: id in db.rows ==> db.rows[id].createdAt <= db.clock
    ensures forall id :: id in Step(db, op).rows ==> Step(db, op).rows[id].createdAt <= db.clock
  {
    StepKeepsPlans(db, op);
    hide Step, Mints, VersionsGrow;
  }

  /** In every run, a plan that is applied was made after the last mapping of its instance. */
  lemma NoMappingSincePlan(events: seq<Event>, now: Stamp, app: Id, id: Id, confirm: string, allowed: bool, active: bool, fits: bool, r: nat)
    requires Legal(EMPTY, events) && ApplyPlan(At(Run(EMPTY, events), now), app, id, confirm, allowed, active, fits).1.Ok?
    requires r < |events| && MapsAt(events, r, Run(EMPTY, events).rows[id].instance)
    ensures events[r].now <= Run(EMPTY, events).rows[id].createdAt
  {
    var db := Run(EMPTY, events);
    RunInTime(events);
    ApplyExactly(At(db, now), app, id, confirm, allowed, active, fits);
    assert Outdated(db, db.rows[id].instance, events[r].now);
    hide Run, Legal, ApplyPlan, MappedInTime, Adopts;
  }
}
