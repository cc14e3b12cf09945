/** Each transaction of the deployment store keeps the invariant. */
module DeploymentPreserved {
  import opened Options
  import opened Deployments
  import opened SettleRules
  import opened RemovalRules
  import opened DeploymentSteps
  import opened DeploymentInvariant

  /** The transaction's clock reading is later than everything stored. */
  ghost predicate Past(db: Db) {
    && (forall id :: id in db.rows ==> db.rows[id].createdAt < db.clock)
    && (forall i :: i in db.instances && i in db.wins ==> WonBefore(db.wins[i], db.clock))
    && (forall i :: i in db.answered ==> db.answered[i] < db.clock)
  }

  ghost predicate WonBefore(wins: seq<Win>, clock: Stamp) {
    forall k :: 0 <= k < |wins| ==> wins[k].settledAt < clock
  }

  lemma Tick(db: Db, now: Stamp)
    requires Inv(db) && now > db.clock
    ensures Inv(db.(clock := now)) && Past(db.(clock := now))
  {
    hide LiveNewest, DistinctStamps, Attached, Recorded, Standing, Bound, FramesOk, Refusals;
    assert forall id :: id in db.rows ==> RowOk(db.rows[id], db.clock);
    forall i | i in db.instances ensures i in db.wins && Chronicle(db.wins[i], db.instances[i], now) {
      assert Chronicle(db.wins[i], db.instances[i], db.clock);
    }
  }

  // ----- Applications and instances -----

  /** No row and no instance uses the identifier yet. */
  ghost predicate NewInstance(db: Db, id: Id) {
    id !in db.instances && forall r :: r in db.rows ==> db.rows[r].instance != id
  }

  ghost predicate Holds(rs: Resources, rs': Resources, instance: Id) {
    forall k :: k in rs && rs[k].instance == instance ==> k in rs' && rs'[k].instance == instance
  }

  lemma FrameBoundMoves(rs: Resources, rs': Resources, row: Row)
    requires FrameBound(rs, row) && Holds(rs, rs', row.instance)
    ensures FrameBound(rs', row)
  {
  }

  lemma HoldsBound(rows: map<Id, Row>, instances: map<Id, Instance>, answered: map<Id, Stamp>, rs: Resources,
                   instances': map<Id, Instance>, rs': Resources)
    requires Bound(rows, instances, answered, rs)
    requires forall id :: id in rows && rows[id].instance in instances' ==> rows[id].instance in instances && Holds(rs, rs', rows[id].instance)
    ensures Bound(rows, instances', answered, rs')
  {
    hide FrameBound, Holds;
    forall id | id in rows && Sent(rows[id]) && rows[id].instance in instances' && Untold(rows[id], answered)
      ensures FrameBound(rs', rows[id])
    {
      FrameBoundMoves(rs, rs', rows[id]);
    }
  }

  lemma AddInstanceKeeps(db: Db, id: Id, i: Instance, rs: Resources)
    requires Inv(db) && NewInstance(db, id) && i.current == 0 && i.previous == 0
    requires forall k :: k in db.resources ==> k in rs && rs[k] == db.resources[k]
    ensures Inv(AddInstance(db, id, i, rs))
  {
    hide LiveNewest, DistinctStamps, Bound, FramesOk, Refusals, RowsOk, PlansCurrent, Chronicle, Stands;
    HoldsBound(db.rows, db.instances, db.answered, db.resources, db.instances[id := i], rs);
    FirstChronicle(i, db.clock);
    assert forall r :: r in db.rows ==> AttachedTo(db.rows[r], db.instances);
  }

  lemma FirstChronicle(i: Instance, clock: Stamp)
    requires i.current == 0 && i.previous == 0
    ensures Chronicle([], i, clock)
  {
  }

  lemma {:induction false} ClaimGrows(rs: Resources, instance: Id, endpoint: Id, found: seq<Adopted>)
    requires Claim(rs, instance, endpoint, found).Ok?
    ensures forall k :: k in rs ==>
              k in Claim(rs, instance, endpoint, found).value && Claim(rs, instance, endpoint, found).value[k] == rs[k]
  {
    if found != [] {
      ClaimGrows(rs, instance, endpoint, found[..|found| - 1]);
    }
  }

  lemma AdoptKeeps(db: Db, id: Id, app: Id, endpoint: Id, project: string, found: seq<Adopted>, preview: bool)
    requires Inv(db) && NewInstance(db, id)
    ensures Inv(Adopt(db, id, app, endpoint, project, found, preview).0)
  {
    hide Inv, NewInstance, AddInstance, Placed;
    if Claim(db.resources, id, endpoint, found).Ok? {
      ClaimGrows(db.resources, id, endpoint, found);
      AddInstanceKeeps(db, id, Instance(app, endpoint, project, "", 0, 0, 0), Claim(db.resources, id, endpoint, found).value);
    }
  }

  lemma MapClusterKeeps(db: Db, id: Id, app: Id, endpoint: Id, project: string, namespace: string, granted: bool)
    requires Inv(db) && NewInstance(db, id)
    ensures Inv(MapCluster(db, id, app, endpoint, project, namespace, granted).0)
  {
    hide Inv, NewInstance, AddInstance, Placed;
    AddInstanceKeeps(db, id, Instance(app, endpoint, project, namespace, 1, 0, 0), db.resources);
  }

  /** The instance keeps what rows and history depend on, and no container changes hands. */
  lemma InstanceEditKeeps(db: Db, instance: Id, i: Instance, rs: Resources)
    requires Inv(db) && instance in db.instances
    requires i.app == db.instances[instance].app && i.endpoint == db.instances[instance].endpoint
    requires i.current == db.instances[instance].current && i.previous == db.instances[instance].previous
    requires rs.Keys == db.resources.Keys && forall k :: k in rs ==> rs[k].instance == db.resources[k].instance
    ensures Inv(db.(instances := db.instances[instance := i], resources := rs))
  {
    hide LiveNewest, DistinctStamps, FramesOk, Refusals, RowsOk, PlansCurrent, Stands, Kept, Logged, Bound;
    var instances := db.instances[instance := i];
    forall j | j in instances ensures j in db.wins && Chronicle(db.wins[j], instances[j], db.clock) {
      assert Chronicle(db.wins[j], db.instances[j], db.clock);
    }
    HoldsBound(db.rows, db.instances, db.answered, db.resources, instances, rs);
    assert forall r :: r in db.rows ==> AttachedTo(db.rows[r], db.instances);
  }

  lemma RemapKeeps(db: Db, instance: Id, bindings: map<Id, string>, reviewed: bool)
    requires Inv(db)
    ensures Inv(Remap(db, instance, bindings, reviewed).0)
  {
    hide Inv, HasApplying;
    if instance in db.instances {
      var i := db.instances[instance];
      InstanceEditKeeps(db, instance, i.(mappingVersion := i.mappingVersion + 1), Rename(db.resources, instance, bindings));
    }
  }

  lemma RenamespaceKeeps(db: Db, instance: Id, namespace: string, granted: bool)
    requires Inv(db)
    ensures Inv(Renamespace(db, instance, namespace, granted).0)
  {
    hide Inv, HasApplying;
    if instance in db.instances {
      var i := db.instances[instance];
      InstanceEditKeeps(db, instance, i.(namespace := namespace, mappingVersion := i.mappingVersion + 1), db.resources);
    }
  }

  // ----- Rows that go -----

  /** A row that counts for history or for ordering against others is never a plan. */
  lemma KeptWithout(rows: map<Id, Row>, rows': map<Id, Row>, instance: Id, wins: seq<Win>)
    requires Kept(rows, instance, wins)
    requires forall id :: id in rows && rows[id].instance == instance && rows[id].Won() ==> id in rows' && rows'[id] == rows[id]
    ensures Kept(rows', instance, wins)
  {
    forall w | Stands(rows, instance, w) ensures Stands(rows', instance, w) {
      var id :| id in rows && rows[id].instance == instance && rows[id].Won() && rows[id].settledAt.Some? && WinOf(rows[id]) == w;
      assert rows'[id] == rows[id];
    }
  }

  lemma DropPlansStanding(rows: map<Id, Row>, instances: map<Id, Instance>, wins: map<Id, seq<Win>>, instance: Id)
    requires Standing(rows, instances, wins)
    ensures Standing(DropPlans(rows, instance), instances, wins)
  {
    hide Kept;
    forall i | i in instances && i in wins ensures Kept(DropPlans(rows, instance), i, wins[i]) {
      KeptWithout(rows, DropPlans(rows, instance), i, wins[i]);
    }
  }

  ghost predicate Fewer(rows: map<Id, Row>, rows': map<Id, Row>) {
    forall id :: id in rows' ==> id in rows && rows'[id] == rows[id]
  }

  /** What holds of every row, or of any two, holds of fewer rows. */
  lemma FewerRows(db: Db, rows: map<Id, Row>)
    requires Inv(db) && Fewer(db.rows, rows)
    ensures RowsOk(rows, db.clock) && LiveNewest(rows) && DistinctStamps(rows)
    ensures Attached(rows, db.instances) && Recorded(rows, db.instances, db.wins) && FramesOk(rows)
    ensures PlansCurrent(rows, db.answered, db.clock) && Bound(rows, db.instances, db.answered, db.resources)
  {
    hide History, Standing, FrameBound, Untold, Open, Refusals, RowOk, Logged, AttachedTo, DistinctTargets;
    WanesKeepsOrder(db.rows, rows);
  }

  lemma FewerRefusals(rows: map<Id, Row>, rows': map<Id, Row>, audit: seq<Audit>)
    requires Refusals(rows, audit) && Fewer(rows, rows')
    ensures Refusals(rows', audit)
  {
    hide LabelCount;
  }

  lemma DropPlansKeeps(db: Db, instance: Id)
    requires Inv(db)
    ensures Inv(db.(rows := DropPlans(db.rows, instance)))
  {
    var rows := DropPlans(db.rows, instance);
    assert Fewer(db.rows, rows);
    hide DropPlans, History, Standing, Bound, Refusals, RowsOk, LiveNewest, DistinctStamps, Attached, Recorded, FramesOk, PlansCurrent;
    FewerRows(db, rows);
    FewerRefusals(db.rows, rows, db.audit);
    DropPlansStanding(db.rows, db.instances, db.wins, instance);
  }

  /** The instance goes with its containers, and every row stays. */
  lemma DropInstanceKeeps(db: Db, instance: Id)
    requires Inv(db) && !HasApplying(db.rows, instance)
    ensures Inv(db.(instances := db.instances - {instance}, resources := ForgetAll(db.resources, instance)))
  {
    hide LiveNewest, DistinctStamps, FramesOk, Refusals, RowsOk, PlansCurrent, Kept, Logged, Bound, Chronicle;
    HoldsBound(db.rows, db.instances, db.answered, db.resources, db.instances - {instance}, ForgetAll(db.resources, instance));
    assert forall r :: r in db.rows ==> AttachedTo(db.rows[r], db.instances);
    assert forall r :: r in db.rows && db.rows[r].state == Applying ==> db.rows[r].instance != instance;
  }

  lemma ReleaseIsGuarded(db: Db, app: Id, instance: Id, confirm: string)
    requires Attached(db.rows, db.instances) && Release(db, app, instance, confirm).1.Ok?
    ensures !HasApplying(db.rows, instance)
  {
    assert forall id :: id in db.rows ==> AttachedTo(db.rows[id], db.instances);
    assert forall id :: id in db.rows && db.rows[id].instance == instance ==> id in OfApp(db.rows, app);
  }

  lemma ReleaseKeeps(db: Db, app: Id, instance: Id, confirm: string)
    requires Inv(db)
    ensures Inv(Release(db, app, instance, confirm).0)
  {
    hide RowsOk, LiveNewest, DistinctStamps, Attached, History, Recorded, Standing, Bound, FramesOk, PlansCurrent, Refusals;
    if Release(db, app, instance, confirm).1.Ok? {
      ReleaseIsGuarded(db, app, instance, confirm);
      DropBothKeeps(db, instance);
    }
  }

  lemma DropBothKeeps(db: Db, instance: Id)
    requires Inv(db) && !HasApplying(db.rows, instance)
    ensures Inv(db.(rows := DropPlans(db.rows, instance),
                    instances := db.instances - {instance},
                    resources := ForgetAll(db.resources, instance)))
  {
    var mid := db.(rows := DropPlans(db.rows, instance));
    assert !HasApplying(mid.rows, instance);
    hide *;
    DropPlansKeeps(db, instance);
    DropInstanceKeeps(mid, instance);
  }
}
