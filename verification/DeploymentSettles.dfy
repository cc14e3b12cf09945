/** Accepting an agent's result keeps the invariant. */
module DeploymentSettles {
  import opened Options
  import opened Deployments
  import opened SettleRules
  import opened RemovalRules
  import opened DeploymentSteps
  import opened DeploymentInvariant
  import opened DeploymentPreserved
  import opened DeploymentMoves

  function SettledRow(db: Db, res: Result): (row: Row)
    requires res.deployment in db.rows
  {
    db.rows[res.deployment].(state := Ended(res.outcome), detail := "", settledAt := Some(db.clock))
  }

  function SettledRows(db: Db, res: Result): (rows: map<Id, Row>)
    requires res.deployment in db.rows
  {
    var row := db.rows[res.deployment];
    ExpirePlans(db.rows[res.deployment := SettledRow(db, res)], row.instance, row.createdAt, db.clock)
  }

  predicate Wins(db: Db, res: Result)
    requires res.deployment in db.rows
  {
    db.rows[res.deployment].kind == Apply && res.outcome == Succeeded
  }

  /** All but the settled row are as they were, except when a plan expires. */
  lemma SettledRowsPointwise(db: Db, res: Result)
    requires res.deployment in db.rows
    ensures var rows := SettledRows(db, res);
            && rows.Keys == db.rows.Keys
            && (db.rows[res.deployment].state != Planned ==> rows[res.deployment] == SettledRow(db, res))
            && forall id :: id in rows && id != res.deployment ==>
                 rows[id] == db.rows[id] || (db.rows[id].state == Planned && rows[id] == db.rows[id].(expiresAt := db.clock))
  {
  }

  lemma SettledKeepsParts(db: Db, res: Result)
    requires Inv(db) && Past(db) && res.deployment in db.rows && db.rows[res.deployment].ActedOn()
    ensures var rows := SettledRows(db, res);
            && RowsOk(rows, db.clock) && LiveNewest(rows) && DistinctStamps(rows) && FramesOk(rows)
  {
    hide History, Standing, Bound, Refusals, Attached, Recorded, PlansCurrent, DistinctTargets, SettledRows, LiveNewest, DistinctStamps, WonBefore;
    SettledRowsPointwise(db, res);
    var rows := SettledRows(db, res);
    assert RowOk(db.rows[res.deployment], db.clock);
    forall id | id in rows ensures RowOk(rows[id], db.clock) {
      assert RowOk(db.rows[id], db.clock);
    }
    WanesKeepsOrder(db.rows, rows);
  }

  /** The settled row was not won before, and a settleable row is newer than every win of its instance. */
  lemma NewerThanWins(db: Db, id: Id)
    requires Inv(db) && Settleable(db.rows, db.instances, id) && db.rows[id].instance in db.instances
    ensures db.rows[id].instance in db.wins
    ensures forall k :: 0 <= k < |db.wins[db.rows[id].instance]| ==> db.wins[db.rows[id].instance][k].createdAt < db.rows[id].createdAt
  {
    hide RowsOk, Attached, Recorded, Bound, FramesOk, PlansCurrent, Refusals, LiveNewest, DistinctStamps, Overtaken;
    var i := db.rows[id].instance;
    var wins := db.wins[i];
    assert Chronicle(wins, db.instances[i], db.clock);
    if wins != [] {
      assert Kept(db.rows, i, wins);
      var n :| n in db.rows && db.rows[n].instance == i && db.rows[n].Won() && db.rows[n].settledAt.Some? && WinOf(db.rows[n]) == wins[|wins| - 1];
      SettleableIsNewest(db.rows, db.instances, id, n);
    }
  }

  lemma ExtendChronicle(wins: seq<Win>, i: Instance, row: Row, clock: Stamp)
    requires Chronicle(wins, i, clock) && WonBefore(wins, clock)
    requires forall k :: 0 <= k < |wins| ==> wins[k].createdAt < row.createdAt
    ensures Chronicle(wins + [Win(row.createdAt, row.revision, clock)], Advance(i, row.revision), clock)
  {
  }

  lemma RecordHistory(db: Db, res: Result, rs: Resources, released: bool)
    requires Inv(db) && Past(db) && Settleable(db.rows, db.instances, res.deployment)
    requires released ==> db.rows[res.deployment].kind == Remove
    ensures var db' := Record(db, res, rs, released); History(db'.instances, db'.wins, db.clock)
  {
    hide RowsOk, Recorded, Standing, Bound, FramesOk, PlansCurrent, Refusals, LiveNewest, DistinctStamps, Overtaken, Chronicle,
      WonBefore, ExpirePlans;
    var row := db.rows[res.deployment];
    assert AttachedTo(row, db.instances);
    assert Chronicle(db.wins[row.instance], db.instances[row.instance], db.clock);
    if Wins(db, res) {
      NewerThanWins(db, res.deployment);
      ExtendChronicle(db.wins[row.instance], db.instances[row.instance], row, db.clock);
    }
  }

  lemma RecordAttached(db: Db, res: Result, rs: Resources, released: bool)
    requires Inv(db) && Settleable(db.rows, db.instances, res.deployment)
    ensures var db' := Record(db, res, rs, released); Attached(db'.rows, db'.instances)
  {
    hide RowsOk, Recorded, Standing, Bound, FramesOk, PlansCurrent, Refusals, History, DistinctStamps, LiveNewest, SettledRows, ExpirePlans;
    var row := db.rows[res.deployment];
    var db' := Record(db, res, rs, released);
    assert db'.rows == SettledRows(db, res) by { assert SettledRow(db, res) == row.(state := Ended(res.outcome), detail := "", settledAt := Some(db.clock)); SettledRowsDef(db, res); }
    SettledRowsPointwise(db, res);
    forall id | id in db'.rows ensures AttachedTo(db'.rows[id], db'.instances) {
      assert AttachedTo(db.rows[id], db.instances);
      if id != res.deployment && db.rows[id].state == Applying && db.rows[id].instance == row.instance {
        SettleableIsNewest(db.rows, db.instances, res.deployment, id);
        assert Settleable(db.rows, db.instances, id);
        SettleableIsNewest(db.rows, db.instances, id, res.deployment);
      }
    }
  }

  lemma SettledRowsDef(db: Db, res: Result)
    requires res.deployment in db.rows
    ensures var row := db.rows[res.deployment];
            SettledRows(db, res) ==
            ExpirePlans(db.rows[res.deployment := row.(state := Ended(res.outcome), detail := "", settledAt := Some(db.clock))],
                        row.instance, row.createdAt, db.clock)
  {
  }

  lemma RecordRecorded(db: Db, res: Result, rs: Resources, released: bool)
    requires Inv(db) && Settleable(db.rows, db.instances, res.deployment)
    ensures var db' := Record(db, res, rs, released); Recorded(db'.rows, db'.instances, db'.wins)
  {
    hide RowsOk, Standing, Bound, FramesOk, PlansCurrent, Refusals, History, DistinctStamps, LiveNewest, Attached, Overtaken, SettledRows, ExpirePlans;
    var row := db.rows[res.deployment];
    var db' := Record(db, res, rs, released);
    SettledRowsDef(db, res);
    SettledRowsPointwise(db, res);
    forall id | id in db'.rows && db'.rows[id].Won() && db'.rows[id].instance in db'.instances ensures Logged(db'.rows[id], db'.wins) {
      if id == res.deployment {
        assert db'.wins[row.instance][|db'.wins[row.instance]| - 1] == WinOf(db'.rows[id]);
      } else {
        assert Logged(db.rows[id], db.wins);
      }
    }
  }

  lemma RecordStanding(db: Db, res: Result, rs: Resources, released: bool)
    requires Inv(db) && Settleable(db.rows, db.instances, res.deployment)
    ensures var db' := Record(db, res, rs, released); Standing(db'.rows, db'.instances, db'.wins)
  {
    hide RowsOk, Bound, FramesOk, PlansCurrent, Refusals, DistinctStamps, LiveNewest, Recorded, Overtaken, SettledRows, ExpirePlans, Kept, Chronicle;
    var row := db.rows[res.deployment];
    var db' := Record(db, res, rs, released);
    SettledRowsDef(db, res);
    SettledRowsPointwise(db, res);
    forall i | i in db'.instances && i in db'.wins ensures Kept(db'.rows, i, db'.wins[i]) {
      assert i in db.instances && i in db.wins;
      KeptWithout(db.rows, db'.rows, i, db.wins[i]);
      if Wins(db, res) && i == row.instance {
        assert db'.rows[res.deployment] == SettledRow(db, res);
        ExtendKept(db'.rows, i, db.wins[i], res.deployment);
      }
    }
  }

  lemma ExtendKept(rows: map<Id, Row>, i: Id, wins: seq<Win>, id: Id)
    requires Kept(rows, i, wins) && id in rows && rows[id].instance == i && rows[id].Won() && rows[id].settledAt.Some?
    ensures Kept(rows, i, wins + [WinOf(rows[id])])
  {
    assert Stands(rows, i, WinOf(rows[id]));
  }

  lemma RecordBound(db: Db, res: Result, rs: Resources, released: bool)
    requires Inv(db) && Past(db) && Settleable(db.rows, db.instances, res.deployment)
    requires Untouched(db.resources, rs, db.rows[res.deployment].instance)
    ensures var db' := Record(db, res, rs, released); Bound(db'.rows, db'.instances, db'.answered, rs)
  {
    hide RowsOk, Standing, FramesOk, PlansCurrent, Refusals, History, DistinctStamps, LiveNewest, Recorded, Attached, Overtaken,
      SettledRows, ExpirePlans, FrameBound, WonBefore;
    var row := db.rows[res.deployment];
    var db' := Record(db, res, rs, released);
    SettledRowsDef(db, res);
    SettledRowsPointwise(db, res);
    forall id | id in db'.rows && Sent(db'.rows[id]) && db'.rows[id].instance in db'.instances && Untold(db'.rows[id], db'.answered)
      ensures FrameBound(rs, db'.rows[id])
    {
      assert db'.rows[id].createdAt < db.clock;
      assert db'.rows[id].instance != row.instance && db'.rows[id] == db.rows[id];
      FrameBoundMoves(db.resources, rs, db.rows[id]);
    }
  }

  lemma RecordPlans(db: Db, res: Result, rs: Resources, released: bool)
    requires Inv(db) && Settleable(db.rows, db.instances, res.deployment)
    ensures var db' := Record(db, res, rs, released); PlansCurrent(db'.rows, db'.answered, db.clock)
  {
    hide RowsOk, Standing, Bound, FramesOk, Refusals, History, DistinctStamps, Recorded, Attached, Overtaken;
    var row := db.rows[res.deployment];
    var db' := Record(db, res, rs, released);
    forall id | id in db'.rows && Open(db'.rows[id], db.clock) ensures Untold(db'.rows[id], db'.answered) {
      if db'.rows[id].instance == row.instance {
        NotOpen(db, res, id);
        assert false;
      } else {
        assert db'.rows[id] == db.rows[id] && Open(db.rows[id], db.clock);
      }
    }
  }

  /** Once a row settles, no other row of its instance is in flight and no plan of it is open. */
  lemma NotOpen(db: Db, res: Result, id: Id)
    requires LiveNewest(db.rows) && DistinctStamps(db.rows)
    requires Settleable(db.rows, db.instances, res.deployment)
    requires id in db.rows && db.rows[id].instance == db.rows[res.deployment].instance
    ensures !Open(SettledRows(db, res)[id], db.clock)
  {
    if id != res.deployment && db.rows[id].Live() {
      assert db.rows[id].createdAt > db.rows[res.deployment].createdAt;
      if db.rows[id].state == Applying {
        SettleableIsNewest(db.rows, db.instances, res.deployment, id);
      }
    }
  }

  lemma RecordRefusals(db: Db, res: Result, rs: Resources, released: bool)
    requires Refusals(db.rows, db.audit) && Settleable(db.rows, db.instances, res.deployment)
    ensures var db' := Record(db, res, rs, released); Refusals(db'.rows, db'.audit)
  {
    hide Overtaken, Refusals, SettledRows, ExpirePlans;
    var row := db.rows[res.deployment];
    var a := Audit(Agent(row.endpoint), row.kind, res.deployment, Reported(res.outcome));
    var settled := SettledRow(db, res);
    MoveKeepsRefusals(db.rows, db.audit, res.deployment, settled, a);
    SettledRowsDef(db, res);
    SettledRowsPointwise(db, res);
    SameRefusals(db.rows[res.deployment := settled], SettledRows(db, res), db.audit + [a]);
  }

  lemma SameRefusals(rows: map<Id, Row>, rows': map<Id, Row>, audit: seq<Audit>)
    requires Refusals(rows, audit) && rows'.Keys == rows.Keys
    requires forall id :: id in rows ==> RefusalsAllowed(rows'[id]) == RefusalsAllowed(rows[id])
    ensures Refusals(rows', audit)
  {
    hide LabelCount, RefusalsAllowed;
  }

  lemma RecordKeeps(db: Db, res: Result, rs: Resources, released: bool)
    requires Inv(db) && Past(db) && Settleable(db.rows, db.instances, res.deployment)
    requires Untouched(db.resources, rs, db.rows[res.deployment].instance)
    requires released ==> db.rows[res.deployment].kind == Remove
    ensures Inv(Record(db, res, rs, released))
  {
    var db' := Record(db, res, rs, released);
    SettledRowsDef(db, res);
    assert db'.rows == SettledRows(db, res) && db'.clock == db.clock && db'.resources == rs;
    hide RowsOk, LiveNewest, DistinctStamps, Attached, History, Recorded, Standing, Bound, FramesOk, PlansCurrent, Refusals,
      Past, Untouched, Overtaken, Record, SettledRows, ExpirePlans;
    SettledKeepsParts(db, res);
    RecordHistory(db, res, rs, released);
    RecordAttached(db, res, rs, released);
    RecordRecorded(db, res, rs, released);
    RecordStanding(db, res, rs, released);
    RecordBound(db, res, rs, released);
    RecordPlans(db, res, rs, released);
    RecordRefusals(db, res, rs, released);
  }

  lemma SettleApplyUntouched(rs: Resources, instance: Id, endpoint: Id, plan: Plan, res: Result)
    requires SettleApply(rs, instance, endpoint, plan, res).Ok?
    ensures Untouched(rs, SettleApply(rs, instance, endpoint, plan, res).value, instance)
  {
    SettleApplyConserves(rs, instance, endpoint, plan, res);
  }

  lemma SettleRemovalUntouched(rs: Resources, instance: Id, endpoint: Id, plan: Plan, res: Result)
    requires SettleRemoval(rs, instance, endpoint, plan, res).Ok?
    ensures Untouched(rs, SettleRemoval(rs, instance, endpoint, plan, res).value.resources, instance)
  {
    hide RemovalFits, GoneContainers, Targets;
  }

  lemma SettleKeeps(db: Db, endpoint: Id, res: Result, readable: bool, storable: bool)
    requires Inv(db) && Past(db)
    ensures Inv(Settle(db, endpoint, res, readable, storable).0)
  {
    hide Inv, Past, Overtaken, SettleApply, SettleRemoval, Record, Untouched;
    if Settle(db, endpoint, res, readable, storable).1.Ok? {
      var row := db.rows[res.deployment];
      if row.kind == Remove {
        SettleRemovalUntouched(db.resources, row.instance, endpoint, row.plan, res);
        var r := SettleRemoval(db.resources, row.instance, endpoint, row.plan, res).value;
        RecordKeeps(db, res, r.resources, r.released);
      } else {
        SettleApplyUntouched(db.resources, row.instance, endpoint, row.plan, res);
        RecordKeeps(db, res, SettleApply(db.resources, row.instance, endpoint, row.plan, res).value, false);
      }
    }
  }
}
