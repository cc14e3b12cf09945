/**
 When each deployment transaction is taken and what it then writes, told over the rows of the tables
 alone, with the constants written out.
 */
module DeploymentTables {
  import opened Options
  import opened Deployments
  import opened SettleRules
  import opened RemovalRules
  import opened DeploymentSteps
  import opened DeploymentInvariant
  import opened DeploymentRuns

  // ----- Applying a plan -----

  /** The plan's services have distinct names and distinct containers, each adopted by the instance. */
  predicate Adopts(rs: Resources, row: Row) {
    && (forall i, j :: 0 <= i < j < |row.plan.services| ==>
          row.plan.services[i].name != row.plan.services[j].name && row.plan.services[i].containerId != row.plan.services[j].containerId)
    && (forall i :: 0 <= i < |row.plan.services| ==>
          Key(row.endpoint, row.plan.services[i].containerId) in rs
          && rs[Key(row.endpoint, row.plan.services[i].containerId)].instance == row.instance)
  }

  /** The row is a plan that still stands: unexpired, of a revision there is, for the instance as it is mapped now. */
  predicate PlanStanding(db: Db, app: Id, row: Row)
    requires app in db.apps
  {
    && row.kind == Apply && row.state == Planned && db.clock < row.expiresAt && 1 <= row.revision <= db.apps[app].head
    && row.instance in db.instances
    && db.instances[row.instance].endpoint == row.endpoint
    && db.instances[row.instance].mappingVersion == row.mappingVersion
  }

  /**
   A plan is applied if and only if it is the application's, its project is typed, it still stands for
   the instance as mapped and in its namespace, it has a correlation, its frame's containers are
   distinct and adopted, and policy, endpoint and frame allow it. Then exactly that row changes, to
   applying with a deadline ten minutes ahead; a refusal changes nothing.
   */
  lemma ApplyExactly(db: Db, app: Id, id: Id, confirm: string, allowed: bool, active: bool, fits: bool)
    ensures var (db', reply) := ApplyPlan(db, app, id, confirm, allowed, active, fits);
            && (reply.Ok? <==>
                  && app in db.apps && id in db.rows && db.rows[id].app == app
                  && confirm == db.rows[id].plan.project
                  && PlanStanding(db, app, db.rows[id])
                  && db.instances[db.rows[id].instance].namespace == db.rows[id].plan.namespace
                  && db.rows[id].correlation != ""
                  && (db.rows[id].plan.namespace == "" ==> Adopts(db.resources, db.rows[id]))
                  && allowed && active && fits)
            && (reply.Ok? ==>
                  db' == db.(rows := db.rows[id := db.rows[id].(state := Applying, deadline := db.clock + 600_000_000)]))
            && (reply.Err? ==> db' == db)
  {
    if id in db.rows {
      FrameAdopts(db.resources, db.rows[id]);
    }
    hide FrameBound, Adopts;
  }

  lemma FrameAdopts(rs: Resources, row: Row)
    ensures FrameBound(rs, row) <==> (row.plan.namespace == "" ==> Adopts(rs, row))
  {
  }

  /** The refusals of an apply, in the order the transaction looks. */
  lemma ApplyRefusals(db: Db, app: Id, id: Id, confirm: string, allowed: bool, active: bool, fits: bool)
    ensures var reply := ApplyPlan(db, app, id, confirm, allowed, active, fits).1;
            var found := app in db.apps && allowed && id in db.rows && db.rows[id].app == app;
            && (reply == Err(Blocked) <==> app in db.apps && !allowed)
            && (reply == Err(NotFound) <==> app !in db.apps || (allowed && !found))
            && (reply == Err(InProgress) <==> found && db.rows[id].state == Applying)
            && (reply == Err(EndpointOffline) <==> found && confirm == db.rows[id].plan.project && PlanStanding(db, app, db.rows[id]) && !active)
            && (found && db.rows[id].state != Applying && confirm != db.rows[id].plan.project ==> reply == Err(Invalid))
            && (found && db.rows[id].state != Applying && confirm == db.rows[id].plan.project && !PlanStanding(db, app, db.rows[id]) ==>
                  reply == Err(AdoptionChanged))
  {
    hide FrameBound;
  }

  // ----- Moves the server makes on its own -----

  /** Every audit row added is the server's, carries `move`, and is of the kind of the row it names. */
  ghost predicate AddsAudits(db: Db, audit: seq<Audit>, move: Label) {
    && db.audit <= audit
    && forall k :: |db.audit| <= k < |audit| ==>
         audit[k].deployment in db.rows && audit[k] == Audit(System, db.rows[audit[k].deployment].kind, audit[k].deployment, move)
  }

  lemma AddsOne(db: Db, audit: seq<Audit>, move: Label, id: Id)
    requires AddsAudits(db, audit, move) && id in db.rows
    ensures AddsAudits(db, audit + [Audit(System, db.rows[id].kind, id, move)], move)
  {
  }

  predicate SameKinds(rows: map<Id, Row>, rows': map<Id, Row>) {
    rows'.Keys == rows.Keys && forall n :: n in rows ==> rows'[n].kind == rows[n].kind
  }

  lemma PushOneAdds(db: Db, mid: Db, cause: Cause, id: Id)
    requires AddsAudits(db, mid.audit, CauseLabel(cause)) && SameKinds(db.rows, mid.rows)
    ensures var db' := PushOne(mid, cause, id);
            && AddsAudits(db, db'.audit, CauseLabel(cause)) && SameKinds(db.rows, db'.rows)
            && db' == mid.(rows := db'.rows, audit := db'.audit)
  {
    hide Hit, CauseLabel, AddsAudits;
    if id in mid.rows && Hit(cause, id, mid.rows[id], mid.clock) {
      AddsOne(db, mid.audit, CauseLabel(cause), id);
      assert Pushed(cause, mid.rows[id], mid.clock).kind == mid.rows[id].kind;
      hide Pushed;
    }
  }

  lemma {:induction false} PushAdds(db: Db, cause: Cause, affected: seq<Id>)
    ensures var db' := Push(db, cause, affected);
            && AddsAudits(db, db'.audit, CauseLabel(cause)) && SameKinds(db.rows, db'.rows)
            && db' == db.(rows := db'.rows, audit := db'.audit)
  {
    hide PushOne, CauseLabel, AddsAudits;
    if affected == [] {
      NoneAdded(db, CauseLabel(cause));
    } else {
      var front := affected[..|affected| - 1];
      PushAdds(db, cause, front);
      PushOneAdds(db, Push(db, cause, front), cause, affected[|affected| - 1]);
    }
  }

  lemma NoneAdded(db: Db, move: Label)
    ensures AddsAudits(db, db.audit, move)
  {
  }

  /**
   A disconnect of an endpoint moves a selected row if and only if it is applying on that endpoint: to
   unknown, never settled, with one audit row that says it was abandoned.
   */
  lemma DisconnectExactly(db: Db, endpoint: Id, affected: seq<Id>, id: Id)
    requires id in db.rows
    ensures var db' := Push(db, Disconnect(endpoint), affected);
            var moves := id in affected && db.rows[id].state == Applying && db.rows[id].endpoint == endpoint;
            && db'.rows.Keys == db.rows.Keys && db' == db.(rows := db'.rows, audit := db'.audit)
            && db'.rows[id] == (if moves then db.rows[id].(state := Ended(Unknown), detail := "the connection ended before a result arrived")
                                else db.rows[id])
            && (Reachable(db) && moves ==> db'.rows[id].settledAt == None)
            && AddsAudits(db, db'.audit, Abandoned)
            && AuditCount(db'.audit, id) == AuditCount(db.audit, id) + (if moves then 1 else 0)
  {
    PushAdds(db, Disconnect(endpoint), affected);
    PushRow(db, Disconnect(endpoint), affected, id);
    hide Push, AuditCount, AddsAudits, Reachable;
    if Reachable(db) {
      ApplyingIsUnsettled(db, id);
    }
  }

  lemma ApplyingIsUnsettled(db: Db, id: Id)
    requires Reachable(db) && id in db.rows
    ensures db.rows[id].state == Applying ==> db.rows[id].settledAt == None
  {
    ReachableInv(db);
    assert RowOk(db.rows[id], db.clock);
  }

  /**
   The sweep moves a selected row if and only if it is applying and its deadline is more than two
   minutes past: to unknown, never settled, with one audit row that says it was swept.
   */
  lemma SweepExactly(db: Db, affected: seq<Id>, id: Id)
    requires id in db.rows
    ensures var db' := Push(db, PastDeadline, affected);
            var moves := id in affected && db.rows[id].state == Applying && db.clock > db.rows[id].deadline + 120_000_000;
            && db'.rows.Keys == db.rows.Keys && db' == db.(rows := db'.rows, audit := db'.audit)
            && db'.rows[id] == (if moves then db.rows[id].(state := Ended(Unknown), detail := "no result arrived before the deadline")
                                else db.rows[id])
            && (Reachable(db) && moves ==> db'.rows[id].settledAt == None)
            && AddsAudits(db, db'.audit, Swept)
            && AuditCount(db'.audit, id) == AuditCount(db.audit, id) + (if moves then 1 else 0)
  {
    PushAdds(db, PastDeadline, affected);
    PushRow(db, PastDeadline, affected, id);
    hide Push, AuditCount, AddsAudits, Reachable;
    if Reachable(db) {
      ApplyingIsUnsettled(db, id);
    }
  }

  /**
   A frame that was not sent moves exactly its own row, if that is selected and is applying or unknown:
   to failed with the given detail, settled now, with one audit row that says it was not sent.
   */
  lemma UnsentExactly(db: Db, own: Id, detail: string, affected: seq<Id>, id: Id)
    requires id in db.rows
    ensures var db' := Push(db, FrameNotSent(own, detail), affected);
            var moves := id in affected && id == own && (db.rows[id].state == Applying || db.rows[id].state == Ended(Unknown));
            && db'.rows.Keys == db.rows.Keys && db' == db.(rows := db'.rows, audit := db'.audit)
            && db'.rows[id] == (if moves then db.rows[id].(state := Ended(Failed), detail := detail, settledAt := Some(db.clock))
                                else db.rows[id])
            && AddsAudits(db, db'.audit, NotSent)
            && AuditCount(db'.audit, id) == AuditCount(db.audit, id) + (if moves then 1 else 0)
  {
    PushAdds(db, FrameNotSent(own, detail), affected);
    PushRow(db, FrameNotSent(own, detail), affected, id);
    hide Push, AuditCount, AddsAudits;
  }

  // ----- Settling -----

  /** A newer row of the same instance that is no longer just a plan. */
  predicate Superseded(db: Db, row: Row) {
    exists n :: n in db.rows && db.rows[n].instance == row.instance && db.rows[n].createdAt > row.createdAt && db.rows[n].state != Planned
  }

  /** The row still waits for an answer: in flight, or unknown with its instance there and nothing newer done to it. */
  predicate Waits(db: Db, row: Row) {
    row.state == Applying || (row.state == Ended(Unknown) && row.instance in db.instances && !Superseded(db, row))
  }

  /**
   A result is taken if and only if it is readable and storable, names a row of the agent's own endpoint
   that still waits, carries that row's correlation or none, and its answer fits the plan. Anything
   else changes nothing.
   */
  lemma SettleExactly(db: Db, endpoint: Id, res: Result, readable: bool, storable: bool)
    ensures var r := Settle(db, endpoint, res, readable, storable);
            && (r.1.Ok? <==>
                  && readable && storable && res.deployment in db.rows
                  && var row := db.rows[res.deployment];
                  && row.endpoint == endpoint && Waits(db, row)
                  && (res.requestId == "" || res.requestId == row.correlation)
                  && (row.kind == Apply ==> SettleApply(db.resources, row.instance, endpoint, row.plan, res).Ok?)
                  && (row.kind == Remove ==> SettleRemoval(db.resources, row.instance, endpoint, row.plan, res).Ok?))
            && (r.1.Err? ==> r.0 == db)
            && (r.1 == Err(Unreadable) <==> !readable)
            && (r.1 == Err(NotFound) <==>
                  readable && storable &&
                  !(res.deployment in db.rows && db.rows[res.deployment].endpoint == endpoint && Waits(db, db.rows[res.deployment])))
  {
    if res.deployment in db.rows {
      WaitsIsSettleable(db, res.deployment);
      RuleErrors(db.resources, db.rows[res.deployment].instance, endpoint, db.rows[res.deployment].plan, res);
    }
    hide Waits, SettleApply, SettleRemoval, Record, Overtaken;
    if res.deployment in db.rows {
      hide Settleable;
    }
  }

  lemma WaitsIsSettleable(db: Db, id: Id)
    requires id in db.rows
    ensures Waits(db, db.rows[id]) <==> Settleable(db.rows, db.instances, id)
  {
  }

  lemma RuleErrors(rs: Resources, instance: Id, endpoint: Id, plan: Plan, res: Result)
    ensures var r := SettleApply(rs, instance, endpoint, plan, res); r.Err? ==> r.error in {Invalid, AdoptionChanged, Conflict}
    ensures var r := SettleRemoval(rs, instance, endpoint, plan, res); r.Err? ==> r.error == Invalid
  {
    if ApplyFits(plan, res) && plan.namespace == "" {
      AllReportedPlanned(plan, res);
      RebindRefusals(rs, instance, endpoint, plan, res.services);
    }
    hide RemovalFits, ApplyFits, Rebind;
  }

  /** The instance's newer plans, which an accepted result expires. */
  predicate NewerPlan(row: Row, other: Row) {
    other.instance == row.instance && other.state == Planned && other.createdAt > row.createdAt
  }

  /**
   A result that is taken ends its row now with the reported outcome and no detail, expires the
   instance's newer plans and touches no other row; adds one audit row, the agent's; advances the
   instance's revisions exactly on a succeeded apply; and removes the instance and marks the
   application exactly on a succeeded removal.
   */
  lemma SettleWrites(db: Db, endpoint: Id, res: Result, n: Id)
    requires Settle(db, endpoint, res, true, true).1.Ok? && n in db.rows
    ensures var row := db.rows[res.deployment];
            var db' := Settle(db, endpoint, res, true, true).0;
            && db'.rows.Keys == db.rows.Keys
            && db'.rows[n] == (if n == res.deployment then row.(state := Ended(res.outcome), detail := "", settledAt := Some(db.clock))
                               else if NewerPlan(row, db.rows[n]) then db.rows[n].(expiresAt := db.clock)
                               else db.rows[n])
            && db'.audit == db.audit + [Audit(Agent(endpoint), row.kind, res.deployment, Reported(res.outcome))]
            && db'.clock == db.clock
    ensures var row := db.rows[res.deployment];
            var db' := Settle(db, endpoint, res, true, true).0;
            && db'.instances ==
                 (if res.outcome != Succeeded then db.instances
                  else if row.kind == Remove then db.instances - {row.instance}
                  else if row.instance in db.instances then
                    var i := db.instances[row.instance];
                    db.instances[row.instance := i.(current := row.revision, previous := i.current)]
                  else db.instances)
            && db'.apps ==
                 (if res.outcome == Succeeded && row.kind == Remove && row.app in db.apps then
                    db.apps[row.app := db.apps[row.app].(removed := true)]
                  else db.apps)
  {
    AcceptedByRule(db, endpoint, res);
    var row := db.rows[res.deployment];
    var rule := Ruling(db.resources, row, endpoint, res);
    assert rule.value.released <==> res.outcome == Succeeded && row.kind == Remove by {
      if row.kind == Remove {
        RemovalReleases(db.resources, row.instance, endpoint, row.plan, res);
      }
      hide SettleApply, SettleRemoval;
    }
    hide Settle, Ruling, Settleable;
    RecordWrites(db, res, rule.value.resources, rule.value.released, n);
  }

  lemma RecordWrites(db: Db, res: Result, rs: Resources, released: bool, n: Id)
    requires res.deployment in db.rows && n in db.rows && db.rows[res.deployment].state != Planned
    ensures var row := db.rows[res.deployment];
            var db' := Record(db, res, rs, released);
            && db'.rows.Keys == db.rows.Keys
            && db'.rows[n] == (if n == res.deployment then row.(state := Ended(res.outcome), detail := "", settledAt := Some(db.clock))
                               else if NewerPlan(row, db.rows[n]) then db.rows[n].(expiresAt := db.clock)
                               else db.rows[n])
            && db'.audit == db.audit + [Audit(Agent(row.endpoint), row.kind, res.deployment, Reported(res.outcome))]
            && db'.clock == db.clock
            && db'.instances ==
                 (if released then db.instances - {row.instance}
                  else if row.kind == Apply && res.outcome == Succeeded && row.instance in db.instances then
                    var i := db.instances[row.instance];
                    db.instances[row.instance := i.(current := row.revision, previous := i.current)]
                  else db.instances)
            && db'.apps == (if released && row.app in db.apps then db.apps[row.app := db.apps[row.app].(removed := true)] else db.apps)
  {
  }

  /** A refusal leaves a row that waits on the agent's own endpoint unknown with the given detail, audited once unless it was so already. */
  lemma RefuseExactly(db: Db, endpoint: Id, id: Id, detail: string)
    ensures var (db', reply) := Refuse(db, endpoint, id, detail);
            var waits := id in db.rows && db.rows[id].endpoint == endpoint && Waits(db, db.rows[id]);
            && (reply == if waits then Ok(()) else Err(NotFound))
            && db' == (if waits && !(db.rows[id].state == Ended(Unknown) && db.rows[id].detail == detail) then
                         db.(rows := db.rows[id := db.rows[id].(state := Ended(Unknown), detail := detail)],
                             audit := db.audit + [Audit(Agent(endpoint), db.rows[id].kind, id, Refused)])
                       else db)
  {
    if id in db.rows {
      WaitsIsSettleable(db, id);
    }
    assert id in db.rows && Waits(db, db.rows[id]) ==> db.rows[id].state == Applying || db.rows[id].state == Ended(Unknown);
    hide Waits, Overtaken;
  }
}
