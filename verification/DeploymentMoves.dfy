/** Rows that enter, move or go: planning, applying, removing, server moves, refusals and retention keep the invariant. */
module DeploymentMoves {
  import opened Options
  import opened Deployments
  import opened SettleRules
  import opened RemovalRules
  import opened DeploymentSteps
  import opened DeploymentInvariant
  import opened DeploymentPreserved
  import Text

  // ----- Moving one row -----

  /** The row acts on, or stays acted on, under the same identity and without succeeding. */
  ghost predicate MovesOn(row: Row, row': Row) {
    && row'.instance == row.instance && row'.app == row.app && row'.endpoint == row.endpoint
    && row'.kind == row.kind && row'.plan == row.plan && row'.createdAt == row.createdAt
    && (row'.Live() ==> row.Live()) && row'.ActedOn()
    && !row.Won() && !row'.Won()
  }

  lemma MoveKeepsParts(db: Db, id: Id, row': Row)
    requires Inv(db) && id in db.rows && MovesOn(db.rows[id], row')
    requires RowOk(row', db.clock) && AttachedTo(row', db.instances)
    requires row'.state == Applying ==> Untold(row', db.answered)
    ensures RowsOk(db.rows[id := row'], db.clock)
    ensures LiveNewest(db.rows[id := row']) && DistinctStamps(db.rows[id := row'])
    ensures Attached(db.rows[id := row'], db.instances)
    ensures Recorded(db.rows[id := row'], db.instances, db.wins)
    ensures PlansCurrent(db.rows[id := row'], db.answered, db.clock)
  {
    hide History, Standing, Bound, Refusals, RowOk, AttachedTo, FramesOk, Logged;
    WanesKeepsOrder(db.rows, db.rows[id := row']);
  }

  lemma MoveKeepsFrames(rows: map<Id, Row>, rs: Resources, id: Id, row': Row)
    requires FramesOk(rows) && id in rows && MovesOn(rows[id], row')
    requires rows[id].ActedOn() || FrameBound(rs, row')
    ensures FramesOk(rows[id := row'])
  {
    hide DistinctTargets, DistinctPlan, PlanBound;
  }

  lemma MoveKeepsStanding(rows: map<Id, Row>, instances: map<Id, Instance>, wins: map<Id, seq<Win>>, id: Id, row': Row)
    requires Standing(rows, instances, wins) && id in rows && MovesOn(rows[id], row')
    ensures Standing(rows[id := row'], instances, wins)
  {
    hide Kept;
    forall i | i in instances && i in wins ensures Kept(rows[id := row'], i, wins[i]) {
      KeptWithout(rows, rows[id := row'], i, wins[i]);
    }
  }

  lemma MoveKeepsBound(rows: map<Id, Row>, instances: map<Id, Instance>, answered: map<Id, Stamp>, rs: Resources, id: Id, row': Row)
    requires Bound(rows, instances, answered, rs) && id in rows && MovesOn(rows[id], row')
    requires rows[id].ActedOn() || FrameBound(rs, row')
    ensures Bound(rows[id := row'], instances, answered, rs)
  {
    if rows[id].ActedOn() && FrameBound(rs, rows[id]) {
      FrameBoundSame(rs, rows[id], row');
    }
    hide FrameBound;
  }

  lemma FrameBoundSame(rs: Resources, row: Row, row': Row)
    requires FrameBound(rs, row)
    requires row'.plan == row.plan && row'.instance == row.instance && row'.endpoint == row.endpoint
    ensures FrameBound(rs, row')
  {
  }

  lemma MoveKeeps(db: Db, id: Id, row': Row, audit: seq<Audit>)
    requires Inv(db) && id in db.rows && MovesOn(db.rows[id], row')
    requires RowOk(row', db.clock) && AttachedTo(row', db.instances)
    requires db.rows[id].ActedOn() || FrameBound(db.resources, row')
    requires row'.state == Applying ==> Untold(row', db.answered)
    requires Refusals(db.rows[id := row'], audit)
    ensures Inv(db.(rows := db.rows[id := row'], audit := audit))
  {
    hide RowsOk, LiveNewest, DistinctStamps, Attached, History, Recorded, Standing, Bound, FramesOk, PlansCurrent, Refusals,
      MovesOn, RowOk, AttachedTo, FrameBound;
    MoveKeepsParts(db, id, row');
    MoveKeepsFrames(db.rows, db.resources, id, row');
    MoveKeepsStanding(db.rows, db.instances, db.wins, id, row');
    MoveKeepsBound(db.rows, db.instances, db.answered, db.resources, id, row');
  }

  // ----- Counting audit rows -----

  /** One more audit row adds one to exactly its own count. */
  lemma CountOne(audit: seq<Audit>, a: Audit, id: Id, move: Label)
    ensures LabelCount(audit + [a], id, move) == LabelCount(audit, id, move) + (if a.deployment == id && a.move == move then 1 else 0)
    ensures AuditCount(audit + [a], id) == AuditCount(audit, id) + (if a.deployment == id then 1 else 0)
  {
    assert (audit + [a])[..|audit|] == audit;
  }

  lemma MoveKeepsRefusals(rows: map<Id, Row>, audit: seq<Audit>, id: Id, row': Row, a: Audit)
    requires Refusals(rows, audit) && id in rows && a.deployment == id
    requires RefusalsAllowed(rows[id]) + (if a.move == Refused then 1 else 0)
             <= RefusalsAllowed(row') + (if a.move == Reported(Unknown) then 1 else 0)
    ensures Refusals(rows[id := row'], audit + [a])
  {
    forall k ensures LabelCount(audit + [a], k, Refused) <=
        LabelCount(audit + [a], k, Reported(Unknown)) + (if k in rows[id := row'] then RefusalsAllowed(rows[id := row'][k]) else 1)
    {
      CountOne(audit, a, k, Refused);
      CountOne(audit, a, k, Reported(Unknown));
    }
  }

  // ----- Apply -----

  lemma ApplyRow(db: Db, app: Id, id: Id, confirm: string, allowed: bool, active: bool, fits: bool)
    requires Inv(db) && ApplyPlan(db, app, id, confirm, allowed, active, fits).1.Ok?
    ensures id in db.rows && db.rows[id].state == Planned
    ensures var row' := db.rows[id].(state := Applying, deadline := db.clock + APPLY_DEADLINE);
            && ApplyPlan(db, app, id, confirm, allowed, active, fits).0 == db.(rows := db.rows[id := row'])
            && MovesOn(db.rows[id], row') && RowOk(row', db.clock) && AttachedTo(row', db.instances)
            && FrameBound(db.resources, row') && Untold(row', db.answered)
  {
    hide LiveNewest, DistinctStamps, History, Recorded, Standing, Bound, FramesOk, Refusals;
    assert Open(db.rows[id], db.clock);
    assert RowOk(db.rows[id], db.clock) && AttachedTo(db.rows[id], db.instances);
  }

  lemma ApplyKeeps(db: Db, app: Id, id: Id, confirm: string, allowed: bool, active: bool, fits: bool)
    requires Inv(db)
    ensures Inv(ApplyPlan(db, app, id, confirm, allowed, active, fits).0)
  {
    hide RowsOk, LiveNewest, DistinctStamps, Attached, History, Recorded, Standing, Bound, FramesOk, PlansCurrent, FrameBound, Untold;
    if ApplyPlan(db, app, id, confirm, allowed, active, fits).1.Ok? {
      ApplyRow(db, app, id, confirm, allowed, active, fits);
      var row' := db.rows[id].(state := Applying, deadline := db.clock + APPLY_DEADLINE);
      assert Refusals(db.rows[id := row'], db.audit) by {
        hide LabelCount;
      }
      MoveKeeps(db, id, row', db.audit);
    }
  }

  // ----- Server moves and refusals -----

  lemma PushOneRow(db: Db, cause: Cause, id: Id)
    requires RowsOk(db.rows, db.clock) && Attached(db.rows, db.instances) && Past(db)
    requires id in db.rows && Hit(cause, id, db.rows[id], db.clock)
    ensures var row' := Pushed(cause, db.rows[id], db.clock);
            && MovesOn(db.rows[id], row') && RowOk(row', db.clock) && AttachedTo(row', db.instances)
            && RefusalsAllowed(db.rows[id]) <= RefusalsAllowed(row')
  {
    assert RowOk(db.rows[id], db.clock) && AttachedTo(db.rows[id], db.instances);
  }

  lemma PushOneKeeps(db: Db, cause: Cause, id: Id)
    requires Inv(db) && Past(db)
    ensures Inv(PushOne(db, cause, id)) && Past(PushOne(db, cause, id))
  {
    hide RowsOk, LiveNewest, DistinctStamps, Attached, History, Recorded, Standing, Bound, FramesOk, PlansCurrent, Refusals,
      FrameBound, RefusalsAllowed, RowOk, AttachedTo, WonBefore;
    if id in db.rows && Hit(cause, id, db.rows[id], db.clock) {
      PushOneRow(db, cause, id);
      var row' := Pushed(cause, db.rows[id], db.clock);
      var a := Audit(System, db.rows[id].kind, id, CauseLabel(cause));
      MoveKeepsRefusals(db.rows, db.audit, id, row', a);
      MoveKeeps(db, id, row', db.audit + [a]);
    }
  }

  lemma {:induction false} PushKeeps(db: Db, cause: Cause, affected: seq<Id>)
    requires Inv(db) && Past(db)
    ensures Inv(Push(db, cause, affected)) && Past(Push(db, cause, affected))
  {
    hide Inv, Past, PushOne;
    if affected != [] {
      PushKeeps(db, cause, affected[..|affected| - 1]);
      PushOneKeeps(Push(db, cause, affected[..|affected| - 1]), cause, affected[|affected| - 1]);
    }
  }

  lemma RefuseKeeps(db: Db, endpoint: Id, id: Id)
    requires Inv(db)
    ensures Inv(Refuse(db, endpoint, id, REFUSED_DETAIL).0)
  {
    hide LiveNewest, DistinctStamps, History, Recorded, Standing, Bound, FramesOk, PlansCurrent, Refusals, FrameBound, Overtaken;
    if Refuse(db, endpoint, id, REFUSED_DETAIL).0 != db {
      var row := db.rows[id];
      var row' := row.(state := Ended(Unknown), detail := REFUSED_DETAIL);
      assert RowOk(row, db.clock) && AttachedTo(row, db.instances);
      var a := Audit(Agent(endpoint), row.kind, id, Refused);
      MoveKeepsRefusals(db.rows, db.audit, id, row', a);
      MoveKeeps(db, id, row', db.audit + [a]);
    }
  }

  // ----- Rows that enter -----

  /** No row and no audit record uses the identifier yet. */
  ghost predicate NewRow(db: Db, id: Id) {
    id !in db.rows && forall k :: 0 <= k < |db.audit| ==> db.audit[k].deployment != id
  }

  lemma {:induction false} NoAudit(audit: seq<Audit>, id: Id, move: Label)
    requires forall k :: 0 <= k < |audit| ==> audit[k].deployment != id
    ensures LabelCount(audit, id, move) == 0
  {
    if audit != [] {
      NoAudit(audit[..|audit| - 1], id, move);
    }
  }

  /** A row created now for an instance with nothing in flight. */
  ghost predicate Enters(db: Db, id: Id, row: Row) {
    && NewRow(db, id)
    && row.createdAt == db.clock && row.settledAt.None? && row.Live()
    && (row.kind == Remove ==> row.state != Planned && DistinctTargets(row.plan.containers))
    && row.instance in db.instances && AttachedTo(row, db.instances)
    && (row.kind == Apply ==> row.state == Planned)
    && !HasApplying(db.rows, row.instance)
  }

  lemma EnterKeepsParts(db: Db, id: Id, row: Row)
    requires Inv(db) && Past(db) && Enters(db, id, row)
    ensures RowsOk(db.rows[id := row], db.clock) && FramesOk(db.rows[id := row])
    ensures Attached(db.rows[id := row], db.instances)
    ensures Recorded(db.rows[id := row], db.instances, db.wins)
    ensures PlansCurrent(db.rows[id := row], db.answered, db.clock)
    ensures Bound(db.rows[id := row], db.instances, db.answered, db.resources)
  {
    hide LiveNewest, DistinctStamps, History, Standing, FrameBound, Refusals, AttachedTo, DistinctTargets, Logged, HasApplying, NewRow;
  }

  lemma EnterKeepsStanding(rows: map<Id, Row>, instances: map<Id, Instance>, wins: map<Id, seq<Win>>, id: Id, row: Row)
    requires Standing(rows, instances, wins) && id !in rows
    ensures Standing(rows[id := row], instances, wins)
  {
    hide Kept;
    forall i | i in instances && i in wins ensures Kept(rows[id := row], i, wins[i]) {
      KeptWithout(rows, rows[id := row], i, wins[i]);
    }
  }

  lemma EnterKeepsRefusals(rows: map<Id, Row>, audit: seq<Audit>, id: Id, row: Row)
    requires Refusals(rows, audit)
    requires forall k :: 0 <= k < |audit| ==> audit[k].deployment != id
    ensures Refusals(rows[id := row], audit)
  {
    NoAudit(audit, id, Refused);
    hide LabelCount;
  }

  lemma EnterKeepsOrder(rows: map<Id, Row>, id: Id, row: Row, clock: Stamp)
    requires LiveNewest(rows) && DistinctStamps(rows)
    requires forall k :: k in rows ==> rows[k].createdAt < clock
    requires id !in rows && row.createdAt == clock
    requires forall k :: k in rows && rows[k].instance == row.instance ==> !rows[k].Live()
    ensures LiveNewest(rows[id := row]) && DistinctStamps(rows[id := row])
  {
  }

  lemma EnterKeeps(db: Db, id: Id, row: Row)
    requires Inv(db) && Past(db) && Enters(db, id, row)
    requires forall k :: k in db.rows && db.rows[k].instance == row.instance ==> !db.rows[k].Live()
    ensures Inv(db.(rows := db.rows[id := row]))
  {
    EnterKeepsOrder(db.rows, id, row, db.clock);
    hide RowsOk, LiveNewest, DistinctStamps, Attached, History, Recorded, Standing, Bound, FramesOk, PlansCurrent, Refusals,
      AttachedTo, DistinctTargets, HasApplying, WonBefore;
    EnterKeepsParts(db, id, row);
    EnterKeepsStanding(db.rows, db.instances, db.wins, id, row);
    EnterKeepsRefusals(db.rows, db.audit, id, row);
  }

  /** Replacing an instance's plan, if any, by a new row. */
  lemma ReplacePlanKeeps(db: Db, id: Id, row: Row)
    requires Inv(db) && Past(db) && Enters(db, id, row)
    ensures Inv(db.(rows := DropPlans(db.rows, row.instance)[id := row]))
  {
    var mid := db.(rows := DropPlans(db.rows, row.instance));
    assert Past(mid) && Enters(mid, id, row) && forall k :: k in mid.rows && mid.rows[k].instance == row.instance ==> !mid.rows[k].Live()
    by {
      hide Inv, AttachedTo, DistinctTargets, WonBefore;
    }
    hide *;
    DropPlansKeeps(db, row.instance);
    EnterKeeps(mid, id, row);
  }

  lemma InsertPlanKeeps(db: Db, id: Id, instance: Id, services: seq<PlannedService>, revision: nat, correlation: string, clean: bool)
    requires Inv(db) && Past(db) && NewRow(db, id)
    ensures Inv(InsertPlan(db, id, instance, services, revision, correlation, clean).0)
  {
    hide Inv, Past, NewRow, HasApplying, DropPlans;
    if InsertPlan(db, id, instance, services, revision, correlation, clean).1.Ok? {
      var i := db.instances[instance];
      var row := Row(i.app, instance, i.endpoint, Apply, Planned, revision, i.mappingVersion,
                     Plan(i.project, i.namespace, services, []), db.clock, db.clock + PLAN_TTL, 0, None, "", correlation);
      assert Enters(db, id, row);
      ReplacePlanKeeps(db, id, row);
    }
  }

  lemma RemoveAppKeeps(db: Db, id: Id, app: Id, instance: Id, confirm: string, listing: seq<Key>, correlation: string, clear: bool)
    requires Inv(db) && Past(db) && NewRow(db, id)
    ensures Inv(RemoveApp(db, id, app, instance, confirm, listing, correlation, clear).0)
  {
    hide Inv, Past, NewRow, HasApplying, HasOpenPlan, DropPlans, Lists, LastApplyUnknown, DistinctTargets, TargetsOf;
    if RemoveApp(db, id, app, instance, confirm, listing, correlation, clear).1.Ok? {
      var i := db.instances[instance];
      var targets := if i.namespace == "" then
          assert Lists(db.resources, instance, i.endpoint, listing); Listed(db.resources, instance, i.endpoint, listing)
        else [];
      var row := Row(app, instance, i.endpoint, Remove, Applying, db.apps[app].head, i.mappingVersion,
                     Plan(i.project, i.namespace, [], targets), db.clock, db.clock + APPLY_DEADLINE,
                     db.clock + APPLY_DEADLINE, None, "", correlation);
      assert Enters(db, id, row);
      ReplacePlanKeeps(db, id, row);
    }
  }

  function Listed(rs: Resources, instance: Id, endpoint: Id, listing: seq<Key>): (ts: seq<RemovalTarget>)
    requires Lists(rs, instance, endpoint, listing)
    ensures ts == TargetsOf(rs, listing)
  {
    TargetsOf(rs, listing)
  }

  // ----- Retention -----

  /** The row of one of the last two succeeded applies is a rollback target. */
  lemma KeptIsTarget(db: Db, id: Id, k: nat)
    requires RowsOk(db.rows, db.clock) && DistinctStamps(db.rows)
    requires History(db.instances, db.wins, db.clock) && Recorded(db.rows, db.instances, db.wins)
    requires id in db.rows && db.rows[id].Won() && db.rows[id].settledAt.Some? && db.rows[id].instance in db.instances
    requires var wins := db.wins[db.rows[id].instance];
             && k < |wins| && WinOf(db.rows[id]) == wins[k]
             && (k == |wins| - 1 || (k == |wins| - 2 && wins[k].revision != wins[k + 1].revision))
    ensures RollbackTarget(db, id)
  {
    var d := db.rows[id];
    var wins := db.wins[d.instance];
    assert Chronicle(wins, db.instances[d.instance], db.clock);
    forall n | n in db.rows && db.rows[n].instance == d.instance && db.rows[n].revision == d.revision && db.rows[n].Won() && n != id
      ensures db.rows[n].settledAt.Some? && db.rows[n].settledAt.value < d.settledAt.value
    {
      assert Logged(db.rows[n], db.wins);
      var j :| 0 <= j < |wins| && wins[j] == WinOf(db.rows[n]);
      assert db.rows[n].createdAt != d.createdAt;
      assert j != k && j != k + 1;
    }
    assert !Text.Less(id, id) by { Irreflexive(id); }
  }

  lemma {:induction false} Irreflexive(a: string)
    ensures !Text.Less(a, a)
  {
    if a != [] {
      Irreflexive(a[1..]);
    }
  }

  lemma PruneKeepsStanding(db: Db, batch: set<Id>, cutoff: Stamp)
    requires RowsOk(db.rows, db.clock) && DistinctStamps(db.rows)
    requires History(db.instances, db.wins, db.clock) && Recorded(db.rows, db.instances, db.wins)
    requires Standing(db.rows, db.instances, db.wins)
    ensures Standing(Prune(db, batch, cutoff).rows, db.instances, db.wins)
  {
    var rows := Prune(db, batch, cutoff).rows;
    forall i | i in db.instances && i in db.wins ensures Kept(rows, i, db.wins[i]) {
      var wins := db.wins[i];
      assert Kept(db.rows, i, wins);
      if |wins| > 0 {
        PruneKeepsWin(db, batch, cutoff, i, |wins| - 1);
      }
      if |wins| > 1 && wins[|wins| - 2].revision != wins[|wins| - 1].revision {
        PruneKeepsWin(db, batch, cutoff, i, |wins| - 2);
      }
    }
  }

  lemma PruneKeepsWin(db: Db, batch: set<Id>, cutoff: Stamp, i: Id, k: nat)
    requires RowsOk(db.rows, db.clock) && DistinctStamps(db.rows)
    requires History(db.instances, db.wins, db.clock) && Recorded(db.rows, db.instances, db.wins)
    requires i in db.instances
    requires var wins := db.wins[i];
             k < |wins| && (k == |wins| - 1 || (k == |wins| - 2 && wins[k].revision != wins[k + 1].revision))
    requires Stands(db.rows, i, db.wins[i][k])
    ensures Stands(Prune(db, batch, cutoff).rows, i, db.wins[i][k])
  {
    var id :| id in db.rows && db.rows[id].instance == i && db.rows[id].Won() && db.rows[id].settledAt.Some? && WinOf(db.rows[id]) == db.wins[i][k];
    KeptIsTarget(db, id, k);
    assert !Prunable(db, id, cutoff);
    assert id in Prune(db, batch, cutoff).rows;
  }

  lemma PruneKeeps(db: Db, batch: set<Id>, cutoff: Stamp)
    requires Inv(db)
    ensures Inv(Prune(db, batch, cutoff))
  {
    var rows := Prune(db, batch, cutoff).rows;
    assert Fewer(db.rows, rows);
    hide RowsOk, LiveNewest, DistinctStamps, Attached, History, Recorded, Standing, Bound, FramesOk, PlansCurrent, Refusals, Prunable;
    FewerRows(db, rows);
    FewerRefusals(db.rows, rows, db.audit);
    PruneKeepsStanding(db, batch, cutoff);
  }

  lemma PruneAppsKeepsStanding(db: Db, batch: set<Id>)
    requires Attached(db.rows, db.instances) && Standing(db.rows, db.instances, db.wins)
    ensures Standing(PruneApps(db, batch).rows, db.instances, db.wins)
  {
    hide Kept;
    var rows := PruneApps(db, batch).rows;
    forall i | i in db.instances && i in db.wins ensures Kept(rows, i, db.wins[i]) {
      forall id | id in db.rows && db.rows[id].instance == i ensures id in rows && rows[id] == db.rows[id] {
        assert AttachedTo(db.rows[id], db.instances);
      }
      KeptWithout(db.rows, rows, i, db.wins[i]);
    }
  }

  lemma PruneAppsKeeps(db: Db, batch: set<Id>)
    requires Inv(db)
    ensures Inv(PruneApps(db, batch))
  {
    var rows := PruneApps(db, batch).rows;
    assert Fewer(db.rows, rows);
    hide RowsOk, LiveNewest, DistinctStamps, Attached, History, Recorded, Standing, Bound, FramesOk, PlansCurrent, Refusals, Forgettable;
    FewerRows(db, rows);
    FewerRefusals(db.rows, rows, db.audit);
    PruneAppsKeepsStanding(db, batch);
  }
}
