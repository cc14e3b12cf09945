/**
 When the transactions that place, map, plan, remove and release an instance are taken, and when
 retention deletes a row, told over the rows of the tables alone.
 */
module InstanceTables {
  import opened Options
  import opened Deployments
  import opened SettleRules
  import opened RemovalRules
  import opened DeploymentSteps
  import Text

  /** Some row of the instance is in flight. */
  predicate Busy(rows: map<Id, Row>, instance: Id) {
    exists id :: id in rows && rows[id].instance == instance && rows[id].state == Applying
  }

  // ----- Placing -----

  /** The containers found are new to the table and distinct. */
  predicate Unclaimed(rs: Resources, endpoint: Id, found: seq<Adopted>) {
    && (forall k :: 0 <= k < |found| ==> Key(endpoint, found[k].containerId) !in rs)
    && (forall k, m :: 0 <= k < m < |found| ==> found[k].containerId != found[m].containerId)
  }

  /** `rs'` is `rs` and the containers found, adopted by the instance under no service. */
  ghost predicate Claimed(rs: Resources, rs': Resources, instance: Id, endpoint: Id, found: seq<Adopted>) {
    && (forall q :: q in rs ==> q in rs' && rs'[q] == rs[q])
    && (forall k :: 0 <= k < |found| ==>
          var q := Key(endpoint, found[k].containerId);
          q in rs' && rs'[q] == Resource(instance, found[k].name, found[k].imageId, found[k].createdUnix, ""))
    && (forall q :: q in rs' && q !in rs ==> exists k :: 0 <= k < |found| && q == Key(endpoint, found[k].containerId))
  }

  lemma {:induction false} ClaimExactly(rs: Resources, instance: Id, endpoint: Id, found: seq<Adopted>)
    ensures var r := Claim(rs, instance, endpoint, found);
            && (r.Ok? || r == Err(Conflict))
            && (r.Ok? <==> Unclaimed(rs, endpoint, found))
            && (r.Ok? ==> Claimed(rs, r.value, instance, endpoint, found))
  {
    if found != [] {
      var n := |found| - 1;
      var front := found[..n];
      ClaimExactly(rs, instance, endpoint, front);
      assert forall k :: 0 <= k < n ==> front[k] == found[k];
      if Unclaimed(rs, endpoint, front) {
        ClaimOne(rs, Claim(rs, instance, endpoint, front).value, instance, endpoint, found);
      }
    }
  }

  lemma ClaimOne(rs: Resources, mid: Resources, instance: Id, endpoint: Id, found: seq<Adopted>)
    requires found != [] && Unclaimed(rs, endpoint, found[..|found| - 1]) && Claimed(rs, mid, instance, endpoint, found[..|found| - 1])
    ensures var c := found[|found| - 1];
            var q := Key(endpoint, c.containerId);
            && (q !in mid <==> Unclaimed(rs, endpoint, found))
            && (q !in mid ==> Claimed(rs, mid[q := Resource(instance, c.name, c.imageId, c.createdUnix, "")], instance, endpoint, found))
  {
    var n := |found| - 1;
    var front, c := found[..n], found[n];
    var q := Key(endpoint, c.containerId);
    assert forall k :: 0 <= k < n ==> front[k] == found[k];
    if q in mid && q !in rs {
      var k :| 0 <= k < n && q == Key(endpoint, front[k].containerId);
      assert found[k].containerId == found[n].containerId;
    }
    if q !in mid {
      ClaimMore(rs, mid, instance, endpoint, found);
    }
  }

  lemma ClaimMore(rs: Resources, mid: Resources, instance: Id, endpoint: Id, found: seq<Adopted>)
    requires found != [] && Claimed(rs, mid, instance, endpoint, found[..|found| - 1])
    requires Key(endpoint, found[|found| - 1].containerId) !in mid
    ensures var c := found[|found| - 1];
            Claimed(rs, mid[Key(endpoint, c.containerId) := Resource(instance, c.name, c.imageId, c.createdUnix, "")], instance, endpoint, found)
  {
    var n := |found| - 1;
    var front, c := found[..n], found[n];
    var rs' := mid[Key(endpoint, c.containerId) := Resource(instance, c.name, c.imageId, c.createdUnix, "")];
    assert forall k :: 0 <= k < n ==> front[k] == found[k];
    forall q | q in rs' && q !in rs ensures exists k :: 0 <= k < |found| && q == Key(endpoint, found[k].containerId) {
      if q in mid {
        var k :| 0 <= k < n && q == Key(endpoint, front[k].containerId);
        assert q == Key(endpoint, found[k].containerId);
      } else {
        assert q == Key(endpoint, found[n].containerId);
      }
    }
  }

  /** The application has no instance, and no instance has the project on the endpoint. */
  predicate Vacant(instances: map<Id, Instance>, app: Id, endpoint: Id, project: string) {
    && (forall i :: i in instances ==> instances[i].app != app)
    && (forall i :: i in instances ==> !(instances[i].endpoint == endpoint && instances[i].project == project))
  }

  /**
   An adoption is taken if and only if the application is known and vacant, the preview holds, and the
   containers are new and distinct. Then there is one more instance, never mapped and with no revision,
   that owns exactly those containers, and the application is no longer removed.
   */
  lemma AdoptExactly(db: Db, id: Id, app: Id, endpoint: Id, project: string, found: seq<Adopted>, preview: bool)
    ensures var (db', reply) := Adopt(db, id, app, endpoint, project, found, preview);
            && (reply.Ok? <==> app in db.apps && preview && Vacant(db.instances, app, endpoint, project) && Unclaimed(db.resources, endpoint, found))
            && (reply.Err? ==> db' == db && reply.error == if app !in db.apps then NotFound else if !preview then AdoptionChanged else Conflict)
            && (reply.Ok? ==>
                  && db'.instances == db.instances[id := Instance(app, endpoint, project, "", 0, 0, 0)]
                  && Claimed(db.resources, db'.resources, id, endpoint, found)
                  && db'.apps == db.apps[app := db.apps[app].(removed := false)]
                  && db'.rows == db.rows && db'.audit == db.audit)
  {
    ClaimExactly(db.resources, id, endpoint, found);
    hide Claim, Claimed, Unclaimed;
  }

  /**
   A cluster placement is taken if and only if the application is known and vacant and the namespace is
   a granted one. Then there is one more instance, mapped once, and no container changes.
   */
  lemma MapClusterExactly(db: Db, id: Id, app: Id, endpoint: Id, project: string, namespace: string, granted: bool)
    ensures var (db', reply) := MapCluster(db, id, app, endpoint, project, namespace, granted);
            && (reply.Ok? <==> app in db.apps && granted && namespace != "" && Vacant(db.instances, app, endpoint, project))
            && (reply.Err? ==>
                  db' == db && reply.error == if app !in db.apps then NotFound else if !granted || namespace == "" then Invalid else Conflict)
            && (reply.Ok? ==>
                  && db'.instances == db.instances[id := Instance(app, endpoint, project, namespace, 1, 0, 0)]
                  && db'.apps == db.apps[app := db.apps[app].(removed := false)]
                  && db'.resources == db.resources && db'.rows == db.rows && db'.audit == db.audit)
  {
  }

  // ----- Mapping -----

  /**
   A mapping is taken if and only if the instance stands, its review holds, and nothing of it is in
   flight. Then its version is the next one, each of its containers carries the service it is bound to
   and no other does, and no other instance's container or row changes.
   */
  lemma RemapExactly(db: Db, instance: Id, bindings: map<Id, string>, reviewed: bool)
    ensures var (db', reply) := Remap(db, instance, bindings, reviewed);
            && (reply.Ok? <==> instance in db.instances && reviewed && !Busy(db.rows, instance))
            && (reply.Err? ==> db' == db && reply.error == if instance in db.instances && reviewed then InProgress else AdoptionChanged)
            && (reply.Ok? ==>
                  && db' == db.(instances := db'.instances, resources := db'.resources)
                  && db'.instances.Keys == db.instances.Keys
                  && (forall i :: i in db.instances && i != instance ==> db'.instances[i] == db.instances[i])
                  && db'.instances[instance] == db.instances[instance].(mappingVersion := db.instances[instance].mappingVersion + 1)
                  && db'.resources.Keys == db.resources.Keys
                  && (forall k :: k in db.resources && db.resources[k].instance != instance ==> db'.resources[k] == db.resources[k])
                  && (forall k :: k in db.resources && db.resources[k].instance == instance ==>
                        var service := if k.containerId in bindings then bindings[k.containerId] else "";
                        db'.resources[k] == db.resources[k].(service := service)))
  {
    assert Busy(db.rows, instance) <==> HasApplying(db.rows, instance);
    hide Busy, HasApplying;
  }

  /**
   A cluster instance takes a namespace if and only if it is granted, nothing of the instance is in
   flight, and it is the one it has or nothing was ever sent to that one.
   */
  lemma RenamespaceExactly(db: Db, instance: Id, namespace: string, granted: bool)
    ensures var (db', reply) := Renamespace(db, instance, namespace, granted);
            && (reply.Ok? <==>
                  && instance in db.instances && granted && namespace != "" && db.instances[instance].namespace != ""
                  && !Busy(db.rows, instance)
                  && (db.instances[instance].namespace == namespace
                      || forall id :: id in db.rows && db.rows[id].instance == instance ==> db.rows[id].state == Planned))
            && (reply.Err? ==> db' == db)
            && (reply == Err(NotFound) <==> instance !in db.instances)
            && (reply == Err(Invalid) <==> instance in db.instances && !(granted && namespace != ""))
            && (reply == Err(InProgress) ==> Busy(db.rows, instance))
            && (reply.Ok? ==>
                  var i := db.instances[instance];
                  db' == db.(instances := db.instances[instance := i.(namespace := namespace, mappingVersion := i.mappingVersion + 1)]))
  {
    assert Busy(db.rows, instance) <==> HasApplying(db.rows, instance);
    hide Busy, HasApplying;
  }

  // ----- Planning, removing, releasing -----

  /** `rows'` is `rows` without the instance's plans, and with `row` as `id`. */
  ghost predicate ReplacesPlans(rows: map<Id, Row>, rows': map<Id, Row>, instance: Id, id: Id, row: Row) {
    && id in rows' && rows'[id] == row
    && (forall n :: n != id ==> (n in rows' <==> n in rows && !(rows[n].instance == instance && rows[n].state == Planned)))
    && (forall n :: n != id && n in rows' ==> rows'[n] == rows[n])
  }

  lemma DropsAndAdds(rows: map<Id, Row>, instance: Id, id: Id, row: Row)
    ensures ReplacesPlans(rows, DropPlans(rows, instance)[id := row], instance, id, row)
  {
  }

  /**
   A plan is made if and only if the instance stands and is mapped, the preflight is clean, and nothing
   of the instance is in flight. It replaces the instance's plans, and takes everything it says of the
   instance from the instance as it is now, for ten minutes.
   */
  lemma PlanExactly(db: Db, id: Id, instance: Id, services: seq<PlannedService>, revision: nat, correlation: string, clean: bool)
    ensures var (db', reply) := InsertPlan(db, id, instance, services, revision, correlation, clean);
            && (reply.Ok? <==> instance in db.instances && clean && db.instances[instance].mappingVersion >= 1 && !Busy(db.rows, instance))
            && (reply.Err? ==>
                  && db' == db
                  && reply.error == if instance !in db.instances then AdoptionChanged
                                    else if clean && db.instances[instance].mappingVersion >= 1 then InProgress
                                    else Blocked)
            && (reply.Ok? ==>
                  var i := db.instances[instance];
                  && db' == db.(rows := db'.rows)
                  && ReplacesPlans(db.rows, db'.rows, instance, id,
                       Row(i.app, instance, i.endpoint, Apply, Planned, revision, i.mappingVersion,
                           Plan(i.project, i.namespace, services, []), db.clock, db.clock + 600_000_000, 0, None, "", correlation)))
  {
    assert Busy(db.rows, instance) <==> HasApplying(db.rows, instance);
    if instance in db.instances {
      var i := db.instances[instance];
      DropsAndAdds(db.rows, instance, id,
        Row(i.app, instance, i.endpoint, Apply, Planned, revision, i.mappingVersion,
            Plan(i.project, i.namespace, services, []), db.clock, db.clock + 600_000_000, 0, None, "", correlation));
    }
    hide Busy, HasApplying, DropPlans, ReplacesPlans;
  }

  /** Some plan of the instance has not expired. */
  predicate PlanOpen(rows: map<Id, Row>, instance: Id, now: Stamp) {
    exists id :: id in rows && rows[id].instance == instance && rows[id].state == Planned && now < rows[id].expiresAt
  }

  /** Nobody knows how the instance's last apply ended: it is unknown and nothing newer was sent. */
  predicate InDoubt(rows: map<Id, Row>, instance: Id) {
    exists id ::
      && id in rows && rows[id].instance == instance && rows[id].kind == Apply && rows[id].state == Ended(Unknown)
      && forall n :: n in rows && rows[n].instance == instance && rows[n].createdAt > rows[id].createdAt ==> rows[n].state == Planned
  }

  /** A container's target: its service, or a name made of the start of its identifier, and its identifier. */
  function NamedTarget(rs: Resources, q: Key): (t: RemovalTarget) {
    var short := if |q.containerId| < 12 then q.containerId else q.containerId[..12];
    RemovalTarget(if q in rs && rs[q].service != "" then rs[q].service else "unmapped-" + short, q.containerId)
  }

  /** On a Docker endpoint one target for each container listed, and none on a cluster. */
  function NamedTargets(rs: Resources, namespace: string, listing: seq<Key>): (targets: seq<RemovalTarget>) {
    if namespace == "" then seq(|listing|, k requires 0 <= k < |listing| => NamedTarget(rs, listing[k])) else []
  }

  lemma TargetsAreNamed(rs: Resources, listing: seq<Key>)
    requires forall i :: 0 <= i < |listing| ==> listing[i] in rs
    ensures TargetsOf(rs, listing) == NamedTargets(rs, "", listing)
  {
    forall k | 0 <= k < |listing| ensures TargetsOf(rs, listing)[k] == NamedTarget(rs, listing[k]) {
      var id := listing[k].containerId;
      assert id[..|id|] == id;
      assert TargetsOf(rs, listing)[k] == TargetOf(rs, listing[k]);
    }
  }

  /** The listing is the instance's containers on the endpoint, each once, and there is one. */
  predicate ListsAll(rs: Resources, instance: Id, endpoint: Id, listing: seq<Key>) {
    && |listing| > 0
    && (forall k, m :: 0 <= k < m < |listing| ==> listing[k] != listing[m])
    && (forall q :: q in listing ==> q in rs && rs[q].instance == instance && q.endpoint == endpoint)
    && (forall q :: q in rs && rs[q].instance == instance && q.endpoint == endpoint ==> q in listing)
  }

  lemma ListsIsAll(rs: Resources, instance: Id, endpoint: Id, listing: seq<Key>)
    ensures ListsAll(rs, instance, endpoint, listing) <==> listing != [] && Lists(rs, instance, endpoint, listing)
  {
    assert (forall q :: q in listing ==> q in rs && rs[q].instance == instance && q.endpoint == endpoint) <==>
           forall i :: 0 <= i < |listing| ==> listing[i] in rs && rs[listing[i]].instance == instance && listing[i].endpoint == endpoint;
  }

  /** The targets have distinct services and distinct containers. */
  predicate TargetsApart(targets: seq<RemovalTarget>) {
    forall k, m :: 0 <= k < m < |targets| ==> targets[k].service != targets[m].service && targets[k].containerId != targets[m].containerId
  }

  /** The request is for the application's instance with its project typed, and no work or plan of it stands in the way. */
  predicate Removable(db: Db, app: Id, instance: Id, confirm: string) {
    && app in db.apps && instance in db.instances
    && db.instances[instance].app == app && db.instances[instance].project == confirm
    && !Busy(db.rows, instance) && !PlanOpen(db.rows, instance, db.clock) && !InDoubt(db.rows, instance)
  }

  /**
   A removal is taken if and only if its request is removable and clear and, on a Docker endpoint, lists
   all the instance's containers, under distinct names.
   */
  lemma RemoveExactly(db: Db, id: Id, app: Id, instance: Id, confirm: string, listing: seq<Key>, correlation: string, clear: bool)
    ensures var (db', reply) := RemoveApp(db, id, app, instance, confirm, listing, correlation, clear);
            && (reply.Ok? <==>
                  && Removable(db, app, instance, confirm) && clear
                  && var i := db.instances[instance];
                  && (i.namespace == "" ==> ListsAll(db.resources, instance, i.endpoint, listing))
                  && TargetsApart(NamedTargets(db.resources, i.namespace, listing)))
            && (reply.Err? ==> db' == db)
  {
    BusyAndOpen(db.rows, instance, db.clock);
    hide Busy, HasApplying, PlanOpen, HasOpenPlan, InDoubt, LastApplyUnknown;
    if instance in db.instances {
      ListsIsAll(db.resources, instance, db.instances[instance].endpoint, listing);
      TargetsListed(db, instance, listing);
      hide ListsAll, Lists, TargetsOf, NamedTargets, TargetsApart, DistinctTargets;
    }
  }

  /** The refusals of a removal, in the order the transaction looks. */
  lemma RemoveRefusals(db: Db, id: Id, app: Id, instance: Id, confirm: string, listing: seq<Key>, correlation: string, clear: bool)
    ensures var reply := RemoveApp(db, id, app, instance, confirm, listing, correlation, clear).1;
            var own := app in db.apps && instance in db.instances && db.instances[instance].app == app;
            var typed := own && confirm == db.instances[instance].project;
            && (reply == Err(NotFound) <==> app !in db.apps)
            && (app in db.apps && !own ==> reply == Err(AdoptionChanged))
            && (own && !typed ==> reply == Err(Invalid))
            && (reply == Err(InProgress) <==> typed && Busy(db.rows, instance))
            && (reply == Err(PlanStands) <==> typed && !Busy(db.rows, instance) && PlanOpen(db.rows, instance, db.clock))
            && (reply == Err(Blocked) ==> InDoubt(db.rows, instance) || !clear)
  {
    BusyAndOpen(db.rows, instance, db.clock);
    hide Busy, HasApplying, PlanOpen, HasOpenPlan, InDoubt, LastApplyUnknown, Lists, TargetsOf, DistinctTargets, DropPlans;
  }

  lemma TargetsListed(db: Db, instance: Id, listing: seq<Key>)
    requires instance in db.instances
    ensures var i := db.instances[instance];
            && (i.namespace == "" && Lists(db.resources, instance, i.endpoint, listing) ==>
                  TargetsOf(db.resources, listing) == NamedTargets(db.resources, i.namespace, listing))
            && (i.namespace != "" ==> NamedTargets(db.resources, i.namespace, listing) == [])
            && (TargetsApart(NamedTargets(db.resources, i.namespace, listing)) <==> DistinctTargets(NamedTargets(db.resources, i.namespace, listing)))
  {
    var i := db.instances[instance];
    if i.namespace == "" && Lists(db.resources, instance, i.endpoint, listing) {
      TargetsAreNamed(db.resources, listing);
    }
  }

  /**
   The row of a removal that is taken goes straight to applying, for ten minutes, at the application's
   head and with the listed targets; it replaces the instance's plans and nothing else changes.
   */
  lemma RemoveWrites(db: Db, id: Id, app: Id, instance: Id, confirm: string, listing: seq<Key>, correlation: string, clear: bool)
    requires RemoveApp(db, id, app, instance, confirm, listing, correlation, clear).1.Ok?
    ensures var db' := RemoveApp(db, id, app, instance, confirm, listing, correlation, clear).0;
            var i := db.instances[instance];
            && db' == db.(rows := db'.rows)
            && ReplacesPlans(db.rows, db'.rows, instance, id,
                 Row(app, instance, i.endpoint, Remove, Applying, db.apps[app].head, i.mappingVersion,
                     Plan(i.project, i.namespace, [], NamedTargets(db.resources, i.namespace, listing)),
                     db.clock, db.clock + 600_000_000, db.clock + 600_000_000, None, "", correlation))
  {
    hide HasApplying, HasOpenPlan, LastApplyUnknown, DropPlans, ReplacesPlans, DistinctTargets, Lists;
    var db' := RemoveApp(db, id, app, instance, confirm, listing, correlation, clear).0;
    TargetsListed(db, instance, listing);
    hide TargetsOf, NamedTargets, TargetsApart;
    DropsAndAdds(db.rows, instance, id, db'.rows[id]);
  }

  lemma BusyAndOpen(rows: map<Id, Row>, instance: Id, now: Stamp)
    ensures Busy(rows, instance) <==> HasApplying(rows, instance)
    ensures PlanOpen(rows, instance, now) <==> HasOpenPlan(rows, instance, now)
    ensures InDoubt(rows, instance) <==> LastApplyUnknown(rows, instance)
  {
    if InDoubt(rows, instance) {
      var id :| && id in rows && rows[id].instance == instance && rows[id].kind == Apply && rows[id].state == Ended(Unknown)
                && forall n :: n in rows && rows[n].instance == instance && rows[n].createdAt > rows[id].createdAt ==> rows[n].state == Planned;
      assert !Overtaken(rows, id);
    }
    if LastApplyUnknown(rows, instance) {
      var id :| id in rows && rows[id].instance == instance && rows[id].kind == Apply && rows[id].state == Ended(Unknown) && !Overtaken(rows, id);
      assert forall n :: n in rows && rows[n].instance == instance && rows[n].createdAt > rows[id].createdAt ==> rows[n].state == Planned;
    }
  }

  /**
   A release is taken if and only if the instance is the application's, its project is typed, and no row
   of the application for it is in flight or an open plan. Then the instance, its containers and its
   plans go, and nothing else.
   */
  lemma ReleaseExactly(db: Db, app: Id, instance: Id, confirm: string)
    ensures var (db', reply) := Release(db, app, instance, confirm);
            && (reply.Ok? <==>
                  && app in db.apps && instance in db.instances
                  && db.instances[instance].app == app && db.instances[instance].project == confirm
                  && forall id :: id in db.rows && db.rows[id].app == app && db.rows[id].instance == instance ==>
                       db.rows[id].state != Applying && (db.rows[id].state == Planned ==> db.rows[id].expiresAt <= db.clock))
            && (reply.Err? ==> db' == db)
            && (reply == Err(NotFound) <==> app !in db.apps)
            && (reply == Err(InProgress) <==>
                  app in db.apps && exists id :: id in db.rows && db.rows[id].app == app && db.rows[id].instance == instance && db.rows[id].state == Applying)
            && (reply == Err(PlanStands) ==> exists id :: id in db.rows && db.rows[id].app == app && db.rows[id].instance == instance
                                                          && db.rows[id].state == Planned && db.rows[id].expiresAt > db.clock)
            && (reply.Ok? ==>
                  && db' == db.(rows := db'.rows, instances := db.instances - {instance}, resources := db'.resources)
                  && (forall id :: id in db'.rows <==> id in db.rows && !(db.rows[id].instance == instance && db.rows[id].state == Planned))
                  && (forall id :: id in db'.rows ==> db'.rows[id] == db.rows[id])
                  && (forall k :: k in db'.resources <==> k in db.resources && db.resources[k].instance != instance)
                  && (forall k :: k in db'.resources ==> db'.resources[k] == db.resources[k]))
  {
    OfAppIs(db.rows, app, instance, db.clock);
    hide HasApplying, HasOpenPlan, OfApp;
  }

  lemma OfAppIs(rows: map<Id, Row>, app: Id, instance: Id, now: Stamp)
    ensures HasApplying(OfApp(rows, app), instance) <==>
            exists id :: id in rows && rows[id].app == app && rows[id].instance == instance && rows[id].state == Applying
    ensures HasOpenPlan(OfApp(rows, app), instance, now) <==>
            exists id :: id in rows && rows[id].app == app && rows[id].instance == instance && rows[id].state == Planned && rows[id].expiresAt > now
  {
    if id :| id in rows && rows[id].app == app && rows[id].instance == instance && rows[id].state == Applying {
      assert id in OfApp(rows, app);
    }
    if id :| id in rows && rows[id].app == app && rows[id].instance == instance && rows[id].state == Planned && rows[id].expiresAt > now {
      assert id in OfApp(rows, app);
    }
  }

  // ----- Retention -----

  /** A later success of the same revision, by settlement time and then by identifier. */
  predicate BetterWin(id: Id, row: Row, n: Id, other: Row) {
    && other.kind == Apply && other.state == Ended(Succeeded) && other.instance == row.instance && other.revision == row.revision
    && other.settledAt.Some? && row.settledAt.Some?
    && (other.settledAt.value > row.settledAt.value || (other.settledAt.value == row.settledAt.value && Text.Less(id, n)))
  }

  /** The row is what a rollback to its instance's current or previous revision would use. */
  predicate RolledBackTo(db: Db, id: Id)
    requires id in db.rows
  {
    var row := db.rows[id];
    && row.kind == Apply && row.state == Ended(Succeeded) && row.settledAt.Some?
    && row.instance in db.instances
    && (row.revision == db.instances[row.instance].current || row.revision == db.instances[row.instance].previous)
    && forall n :: n in db.rows ==> !BetterWin(id, row, n, db.rows[n])
  }

  /**
   Retention deletes, of its batch, exactly the rows settled before the cutoff that no rollback would
   use and whose application is not removed, and changes nothing else.
   */
  lemma PruneExactly(db: Db, batch: set<Id>, cutoff: Stamp)
    ensures var db' := Prune(db, batch, cutoff);
            && db' == db.(rows := db'.rows)
            && (forall id :: id in db'.rows ==> id in db.rows && db'.rows[id] == db.rows[id])
            && (forall id :: id in db.rows && id !in db'.rows <==>
                  && id in db.rows && id in batch
                  && db.rows[id].settledAt.Some? && db.rows[id].settledAt.value < cutoff
                  && !RolledBackTo(db, id)
                  && !(db.rows[id].app in db.apps && db.apps[db.rows[id].app].removed))
  {
    forall id | id in db.rows ensures RollbackTarget(db, id) <==> RolledBackTo(db, id) {
      TargetIsRolledBackTo(db, id);
    }
    hide RollbackTarget, RolledBackTo;
  }

  lemma TargetIsRolledBackTo(db: Db, id: Id)
    requires id in db.rows
    ensures RollbackTarget(db, id) <==> RolledBackTo(db, id)
  {
    var row := db.rows[id];
    if row.settledAt.Some? {
      assert (exists n :: n in db.rows && db.rows[n].instance == row.instance && db.rows[n].revision == row.revision && db.rows[n].Won()
                && db.rows[n].settledAt.Some?
                && (db.rows[n].settledAt.value > row.settledAt.value
                    || (db.rows[n].settledAt.value == row.settledAt.value && Text.Less(id, n))))
             <==> exists n :: n in db.rows && BetterWin(id, row, n, db.rows[n]);
    }
  }

  /** Of its batch, exactly the removed applications without an instance go, with all their rows. */
  lemma PruneAppsExactly(db: Db, batch: set<Id>)
    ensures var db' := PruneApps(db, batch);
            && db' == db.(apps := db'.apps, rows := db'.rows)
            && (forall app :: app in db.apps && app !in db'.apps <==>
                  app in db.apps && app in batch && db.apps[app].removed && forall i :: i in db.instances ==> db.instances[i].app != app)
            && (forall app :: app in db'.apps ==> app in db.apps && db'.apps[app] == db.apps[app])
            && (forall id :: id in db'.rows <==> id in db.rows && !(db.rows[id].app in db.apps && db.rows[id].app !in db'.apps))
            && (forall id :: id in db'.rows ==> db'.rows[id] == db.rows[id])
  {
  }
}
