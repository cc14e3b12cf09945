/**
 The deployment store as the server runs it: tables updated in place, one method per transaction,
 loops where the transaction loops. Each method is proved to take the tables exactly where the
 corresponding function of DeploymentSteps takes them, so what is proved of runs of those
 functions holds of the store.
 */
module DeploymentStore {
  import opened Options
  import opened Deployments
  import opened SettleRules
  import opened RemovalRules
  import opened DeploymentSteps
  import opened DeploymentRuns

  // ----- Checking a result -----

  /** The plan's services by name. */
  method IndexServices(services: seq<PlannedService>) returns (planned: map<string, PlannedService>)
    ensures planned == ByName(services)
  {
    planned := map[];
    for i := 0 to |services|
      invariant planned == ByName(services[..i])
    {
      assert services[..i + 1][..i] == services[..i];
      planned := planned[services[i].name := services[i]];
    }
    assert services[..|services|] == services;
  }

  /** The first loop of settleApply and settleKubernetesApply: every identity checked before any write. */
  method CheckApply(plan: Plan, res: Result) returns (ok: bool)
    ensures ok <==> ApplyFits(plan, res)
  {
    var planned := IndexServices(plan.services);
    var seen: set<string> := {};
    for k := 0 to |res.services|
      invariant forall i :: 0 <= i < k ==> IdentityFits(plan, res.services[i])
      invariant seen == ReportedServices(res.services[..k])
      invariant DistinctServices(res.services[..k])
    {
      var idn := res.services[k];
      var fits := if plan.namespace != "" then ObjectFits(planned, idn) else ContainerFits(planned, idn);
      assert fits == IdentityFits(plan, idn);
      if !fits || idn.service in seen {
        if idn.service in seen {
          RepeatIsIndistinct(res.services, k);
        }
        return false;
      }
      assert ReportedServices(res.services[..k + 1]) == seen + {idn.service} by {
        assert res.services[..k + 1] == res.services[..k] + [idn];
        ReportedSnoc(res.services[..k], idn);
      }
      DistinctSnoc(res.services, k);
      seen := seen + {idn.service};
    }
    assert res.services[..|res.services|] == res.services;
    ReportedCount(res.services);
    ok := !(res.outcome == Succeeded && |seen| != |plan.services|);
  }

  lemma RepeatIsIndistinct(ids: seq<Identity>, k: nat)
    requires k < |ids| && ids[k].service in ReportedServices(ids[..k])
    ensures !DistinctServices(ids)
  {
    var i :| 0 <= i < k && ids[..k][i].service == ids[k].service;
    assert ids[i].service == ids[k].service;
  }

  lemma ReportedSnoc(ids: seq<Identity>, idn: Identity)
    ensures ReportedServices(ids + [idn]) == ReportedServices(ids) + {idn.service}
  {
    var all := ids + [idn];
    forall s ensures s in ReportedServices(all) <==> s in ReportedServices(ids) + {idn.service} {
      if s in ReportedServices(ids) {
        var i :| 0 <= i < |ids| && ids[i].service == s;
        assert all[i].service == s;
      }
      if s == idn.service {
        assert all[|ids|].service == s;
      }
    }
  }

  lemma DistinctSnoc(ids: seq<Identity>, k: nat)
    requires k < |ids| && DistinctServices(ids[..k]) && ids[k].service !in ReportedServices(ids[..k])
    ensures DistinctServices(ids[..k + 1])
  {
    var pre := ids[..k + 1];
    forall i, j | 0 <= i < j < |pre| ensures pre[i].service != pre[j].service {
      if j == k {
        assert ids[..k][i].service in ReportedServices(ids[..k]);
      } else {
        assert ids[..k][i].service != ids[..k][j].service;
      }
    }
  }

  /** The second loop of settleApply: delete the planned container's row, insert the reported one. */
  method RebindServices(rs: Resources, instance: Id, endpoint: Id, plan: Plan, ids: seq<Identity>) returns (r: Reply<Resources>)
    requires AllPlanned(plan, ids)
    ensures r == Rebind(rs, instance, endpoint, plan, ids)
  {
    var planned := IndexServices(plan.services);
    var cur := rs;
    for k := 0 to |ids|
      invariant Rebind(rs, instance, endpoint, plan, ids[..k]) == Ok(cur)
    {
      assert ids[..k + 1][..k] == ids[..k] && ids[..k + 1][k] == ids[k];
      var from := Key(endpoint, planned[ids[k].service].containerId);
      if from !in cur || cur[from].instance != instance {
        RebindErr(rs, instance, endpoint, plan, ids, k + 1);
        return Err(AdoptionChanged);
      }
      var name := cur[from].name;
      var rest := cur - {from};
      var to := Key(endpoint, ids[k].containerId);
      if to in rest || ServiceTaken(rest, instance, ids[k].service) {
        RebindErr(rs, instance, endpoint, plan, ids, k + 1);
        return Err(Conflict);
      }
      cur := rest[to := Resource(instance, name, ids[k].imageId, ids[k].createdUnix, ids[k].service)];
    }
    assert ids[..|ids|] == ids;
    r := Ok(cur);
  }

  type Steps = map<string, map<StepName, StepOutcome>>

  ghost predicate Collected(outcomes: Steps, steps: seq<StepReport>) {
    && (forall s, st :: s in outcomes && st in outcomes[s] ==> Saw(steps, s, st, outcomes[s][st]))
    && (forall i :: 0 <= i < |steps| ==>
          steps[i].service in outcomes && steps[i].step in outcomes[steps[i].service]
          && outcomes[steps[i].service][steps[i].step] == steps[i].outcome)
  }

  lemma CollectedGone(outcomes: Steps, steps: seq<StepReport>, s: string, st: StepName, o: StepOutcome)
    requires Collected(outcomes, steps)
    ensures Saw(steps, s, st, o) <==> s in outcomes && st in outcomes[s] && outcomes[s][st] == o
  {
  }

  lemma CollectedSnoc(outcomes: Steps, outcomes': Steps, steps: seq<StepReport>, s: StepReport)
    requires Collected(outcomes, steps)
    requires !(s.service in outcomes && s.step in outcomes[s.service])
    requires outcomes' == outcomes[s.service := (if s.service in outcomes then outcomes[s.service] else map[])[s.step := s.outcome]]
    ensures Collected(outcomes', steps + [s])
  {
    var all := steps + [s];
    forall v, st | v in outcomes' && st in outcomes'[v] ensures Saw(all, v, st, outcomes'[v][st]) {
      if v == s.service && st == s.step {
        assert all[|steps|] == s;
      } else {
        assert Saw(steps, v, st, outcomes[v][st]);
        var i :| 0 <= i < |steps| && steps[i].service == v && steps[i].step == st && steps[i].outcome == outcomes[v][st];
        assert all[i] == steps[i];
      }
    }
  }

  /** settleRemoval's loop over the steps: each names a target and a step of its own. */
  method CollectSteps(targets: map<string, Id>, steps: seq<StepReport>) returns (ok: bool, outcomes: Steps)
    ensures ok <==> (forall i :: 0 <= i < |steps| ==> TargetStep(targets, steps[i])) && NoRepeats(steps)
    ensures ok ==> Collected(outcomes, steps)
  {
    outcomes := map[];
    for k := 0 to |steps|
      invariant forall i :: 0 <= i < k ==> TargetStep(targets, steps[i])
      invariant NoRepeats(steps[..k])
      invariant Collected(outcomes, steps[..k])
    {
      var s := steps[k];
      if !TargetStep(targets, s) {
        return false, outcomes;
      }
      var own := if s.service in outcomes then outcomes[s.service] else map[];
      if s.step in own {
        CollectedGone(outcomes, steps[..k], s.service, s.step, own[s.step]);
        RepeatIsRepeat(steps, k, own[s.step]);
        return false, outcomes;
      }
      NoRepeatSnoc(outcomes, steps, k);
      CollectedSnoc(outcomes, outcomes[s.service := own[s.step := s.outcome]], steps[..k], s);
      assert steps[..k + 1] == steps[..k] + [s];
      outcomes := outcomes[s.service := own[s.step := s.outcome]];
    }
    assert steps[..|steps|] == steps;
    ok := true;
  }

  lemma RepeatIsRepeat(steps: seq<StepReport>, k: nat, o: StepOutcome)
    requires k < |steps| && Saw(steps[..k], steps[k].service, steps[k].step, o)
    ensures !NoRepeats(steps)
  {
    var i :| 0 <= i < k && steps[..k][i].service == steps[k].service && steps[..k][i].step == steps[k].step;
    assert steps[i].service == steps[k].service && steps[i].step == steps[k].step;
  }

  lemma NoRepeatSnoc(outcomes: Steps, steps: seq<StepReport>, k: nat)
    requires k < |steps| && NoRepeats(steps[..k]) && Collected(outcomes, steps[..k])
    requires !(steps[k].service in outcomes && steps[k].step in outcomes[steps[k].service])
    ensures NoRepeats(steps[..k + 1])
  {
    var pre := steps[..k + 1];
    forall i, j | 0 <= i < j < |pre| ensures pre[i].service != pre[j].service || pre[i].step != pre[j].step {
      if j == k {
        assert steps[..k][i] == steps[i];
      } else {
        assert steps[..k][i] == steps[i] && steps[..k][j] == steps[j];
      }
    }
  }

  predicate Off(o: map<StepName, StepOutcome>) {
    && Precondition in o && o[Precondition] == Ran(Succeeded)
    && RemoveStep in o
    && (o[RemoveStep] == Ran(Succeeded) || (Stop in o && o[Stop] == Skipped && o[RemoveStep] == Skipped))
  }

  /** settleRemoval's loop over the targets: the containers the steps prove gone, and whether that is all of them. */
  method FindGone(targets: map<string, Id>, outcomes: Steps, ghost steps: seq<StepReport>) returns (gone: set<Id>, complete: bool)
    requires Collected(outcomes, steps)
    ensures gone == GoneContainers(targets, steps)
    ensures complete <==> forall s :: s in targets ==> ProvenGone(steps, s)
  {
    hide ProvenGone, Collected, Off;
    gone := {};
    var found := 0;
    var todo := targets.Keys;
    ghost var hit: set<string> := {};
    while todo != {}
      invariant todo <= targets.Keys
      invariant hit == set s | s in targets && s !in todo && ProvenGone(steps, s)
      invariant found == |hit|
      invariant gone == set s | s in hit :: targets[s]
      decreases todo
    {
      var s :| s in todo;
      todo := todo - {s};
      OffMeansGone(outcomes, steps, s);
      if s in outcomes && Off(outcomes[s]) {
        gone := gone + {targets[s]};
        found := found + 1;
        hit := hit + {s};
      }
    }
    complete := found == |targets|;
    AllHit(targets.Keys, hit);
  }

  lemma AllHit(all: set<string>, hit: set<string>)
    requires hit <= all
    ensures |hit| == |all| <==> hit == all
  {
    if |hit| == |all| {
      SubsetOfSameSize(hit, all);
    }
  }

  lemma OffMeansGone(outcomes: Steps, steps: seq<StepReport>, s: string)
    requires Collected(outcomes, steps)
    ensures ProvenGone(steps, s) <==> s in outcomes && Off(outcomes[s])
  {
    CollectedGone(outcomes, steps, s, Precondition, Ran(Succeeded));
    CollectedGone(outcomes, steps, s, RemoveStep, Ran(Succeeded));
    CollectedGone(outcomes, steps, s, RemoveStep, Skipped);
    CollectedGone(outcomes, steps, s, Stop, Skipped);
  }

  /** The plan's targets by service. */
  method IndexTargets(containers: seq<RemovalTarget>) returns (targets: map<string, Id>)
    ensures targets == Targets(containers)
  {
    targets := map[];
    for i := 0 to |containers|
      invariant targets == Targets(containers[..i])
    {
      assert containers[..i + 1][..i] == containers[..i];
      targets := targets[containers[i].service := containers[i].containerId];
    }
    assert containers[..|containers|] == containers;
  }

  /** settleApply, up to the writes it decides on. */
  method DecideApply(rs: Resources, instance: Id, endpoint: Id, plan: Plan, res: Result) returns (r: Reply<Resources>)
    ensures r == SettleApply(rs, instance, endpoint, plan, res)
  {
    var ok := CheckApply(plan, res);
    if !ok {
      return Err(Invalid);
    }
    if plan.namespace != "" {
      return Ok(rs);
    }
    AllReportedPlanned(plan, res);
    hide ApplyFits;
    r := RebindServices(rs, instance, endpoint, plan, res.services);
  }

  /** settleRemoval, up to the writes it decides on. */
  method DecideRemoval(rs: Resources, instance: Id, endpoint: Id, plan: Plan, res: Result) returns (r: Reply<Removal>)
    ensures r == SettleRemoval(rs, instance, endpoint, plan, res)
  {
    if |res.services| > 0 {
      return Err(Invalid);
    }
    if plan.namespace != "" {
      for k := 0 to |res.steps|
        invariant forall i :: 0 <= i < k ==> ClusterStep(res.steps[i])
      {
        if !ClusterStep(res.steps[k]) {
          return Err(Invalid);
        }
      }
      if res.outcome != Succeeded {
        return Ok(Removal(rs, false));
      }
      return Ok(Removal(ForgetAll(rs, instance), true));
    }
    var targets := IndexTargets(plan.containers);
    var ok, outcomes := CollectSteps(targets, res.steps);
    if !ok {
      return Err(Invalid);
    }
    var gone, complete := FindGone(targets, outcomes, res.steps);
    if res.outcome == Succeeded && !complete {
      return Err(Invalid);
    }
    if res.outcome != Succeeded {
      return Ok(Removal(Forget(rs, instance, endpoint, gone), false));
    }
    assert ForgetAll(Forget(rs, instance, endpoint, gone), instance) == ForgetAll(rs, instance);
    return Ok(Removal(ForgetAll(Forget(rs, instance, endpoint, gone), instance), true));
  }

  // ----- The store -----

  /** The containers a removal is to prove gone, in the order the query lists them. */
  method ListTargets(rs: Resources, listing: seq<Key>) returns (targets: seq<RemovalTarget>)
    requires forall i :: 0 <= i < |listing| ==> listing[i] in rs
    ensures targets == TargetsOf(rs, listing)
  {
    targets := [];
    for k := 0 to |listing|
      invariant targets == TargetsOf(rs, listing[..k])
    {
      assert listing[..k + 1][..k] == listing[..k];
      targets := targets + [TargetOf(rs, listing[k])];
    }
    assert listing[..|listing|] == listing;
  }

  lemma NothingYet()
    ensures ReachedAt(EMPTY, 0)
  {
    assert Legal(EMPTY, []) && Run(EMPTY, []) == EMPTY && At(EMPTY, 0) == EMPTY;
  }

  lemma Later(db: Db, last: Stamp, now: Stamp)
    requires ReachedAt(db, last) && now > db.clock
    ensures ReachedAt(At(db, now), last) && last < now
  {
    var events :| Legal(EMPTY, events) && Run(EMPTY, events).clock == last <= db.clock && At(Run(EMPTY, events), db.clock) == db;
    assert At(Run(EMPTY, events), now) == At(db, now);
  }

  /** If the store is a run's, the clock was read anew and identifiers are fresh, the run goes on to `db'`. */
  ghost predicate Goes(db: Db, last: Stamp, op: Op, db': Db) {
    ReachedAt(db, last) && last < db.clock && Mints(db, op) ==> ReachedAt(db', db.clock)
  }

  lemma StepGoes(db: Db, last: Stamp, op: Op)
    ensures Goes(db, last, op, Step(db, op))
  {
    hide ReachedAt, Step, Mints;
    if ReachedAt(db, last) && last < db.clock && Mints(db, op) {
      StepReaches(db, last, op);
    }
  }

  // One lemma for each transaction, so that no method's proof unfolds `Step`.

  lemma AdoptGoes(db: Db, last: Stamp, id: Id, app: Id, endpoint: Id, project: string, found: seq<Adopted>, preview: bool)
    ensures Goes(db, last, DoAdopt(id, app, endpoint, project, found, preview), Adopt(db, id, app, endpoint, project, found, preview).0)
  {
    hide Goes, Adopt;
    StepGoes(db, last, DoAdopt(id, app, endpoint, project, found, preview));
  }

  lemma ReleaseGoes(db: Db, last: Stamp, app: Id, instance: Id, confirm: string)
    ensures Goes(db, last, DoRelease(app, instance, confirm), Release(db, app, instance, confirm).0)
  {
    hide Goes, Release;
    StepGoes(db, last, DoRelease(app, instance, confirm));
  }

  lemma PlanGoes(db: Db, last: Stamp, id: Id, instance: Id, services: seq<PlannedService>, revision: nat, correlation: string, clean: bool)
    ensures Goes(db, last, DoPlan(id, instance, services, revision, correlation, clean), InsertPlan(db, id, instance, services, revision, correlation, clean).0)
  {
    hide Goes, InsertPlan;
    StepGoes(db, last, DoPlan(id, instance, services, revision, correlation, clean));
  }

  lemma ApplyGoes(db: Db, last: Stamp, app: Id, id: Id, confirm: string, allowed: bool, active: bool, fits: bool)
    ensures Goes(db, last, DoApply(app, id, confirm, allowed, active, fits), ApplyPlan(db, app, id, confirm, allowed, active, fits).0)
  {
    hide Goes, ApplyPlan;
    StepGoes(db, last, DoApply(app, id, confirm, allowed, active, fits));
  }

  lemma PushGoes(db: Db, last: Stamp, cause: Cause, affected: seq<Id>)
    ensures Goes(db, last, DoPush(cause, affected), Push(db, cause, affected))
  {
    hide Goes, Push;
    StepGoes(db, last, DoPush(cause, affected));
  }

  lemma SettleGoes(db: Db, last: Stamp, endpoint: Id, res: Result, readable: bool, storable: bool)
    ensures Goes(db, last, DoSettle(endpoint, res, readable, storable), Settle(db, endpoint, res, readable, storable).0)
  {
    hide Goes, Settle;
    StepGoes(db, last, DoSettle(endpoint, res, readable, storable));
  }

  lemma RemoveGoes(db: Db, last: Stamp, id: Id, app: Id, instance: Id, confirm: string, listing: seq<Key>, correlation: string, clear: bool)
    ensures Goes(db, last, DoRemove(id, app, instance, confirm, listing, correlation, clear), RemoveApp(db, id, app, instance, confirm, listing, correlation, clear).0)
  {
    hide Goes, RemoveApp;
    StepGoes(db, last, DoRemove(id, app, instance, confirm, listing, correlation, clear));
  }

  lemma RefuseGoes(db: Db, last: Stamp, endpoint: Id, id: Id)
    ensures Goes(db, last, DoRefuse(endpoint, id), Refuse(db, endpoint, id, REFUSED_DETAIL).0)
  {
    hide Goes, Refuse;
    StepGoes(db, last, DoRefuse(endpoint, id));
  }

  class Store {
    var apps: map<Id, Application>
    var instances: map<Id, Instance>
    var resources: Resources
    var rows: map<Id, Row>
    var audit: seq<Audit>
    var clock: Stamp
    ghost var wins: map<Id, seq<Win>>
    ghost var answered: map<Id, Stamp>
    /** The clock reading of the last transaction. */
    ghost var last: Stamp

    /** The tables are those of a run, so everything proved of runs holds of them. */
    ghost predicate Valid()
      reads this
    {
      ReachedAt(View(), last)
    }

    ghost function View(): (db: Db)
      reads this
    {
      Db(apps, instances, resources, rows, audit, clock, wins, answered)
    }

    constructor ()
      ensures Valid() && View() == Db(map[], map[], map[], map[], [], 0, map[], map[])
    {
      apps, instances, resources, rows, audit, clock := map[], map[], map[], map[], [], 0;
      wins, answered, last := map[], map[], 0;
      new;
      NothingYet();
    }

    /** The next transaction's reading of the clock. */
    method ReadClock(now: Stamp)
      requires Valid() && now > clock
      modifies `clock
      ensures Valid() && View() == At(old(View()), now) && last < clock
    {
      Later(View(), last, now);
      hide ReachedAt;
      clock := now;
    }

    /** AdoptApplication. */
    method AdoptApplication(id: Id, app: Id, endpoint: Id, project: string, found: seq<Adopted>, preview: bool)
      returns (reply: Reply<()>)
      modifies this
      ensures (View(), reply) == Adopt(old(View()), id, app, endpoint, project, found, preview)
      ensures last == clock && Goes(old(View()), old(last), DoAdopt(id, app, endpoint, project, found, preview), View())
    {
      AdoptGoes(View(), last, id, app, endpoint, project, found, preview);
      hide Goes;
      last := clock;
      if app !in apps {
        return Err(NotFound);
      }
      if !preview {
        return Err(AdoptionChanged);
      }
      if Placed(instances, app, endpoint, project) {
        return Err(Conflict);
      }
      var rs := resources;
      for k := 0 to |found|
        invariant View() == old(View())
        invariant Claim(resources, id, endpoint, found[..k]) == Ok(rs)
      {
        assert found[..k + 1][..k] == found[..k];
        var key := Key(endpoint, found[k].containerId);
        if key in rs {
          ClaimErr(resources, id, endpoint, found, k + 1);
          return Err(Conflict);
        }
        rs := rs[key := Resource(id, found[k].name, found[k].imageId, found[k].createdUnix, "")];
      }
      assert found[..|found|] == found;
      instances := instances[id := Instance(app, endpoint, project, "", 0, 0, 0)];
      apps := apps[app := apps[app].(removed := false)];
      resources := rs;
      wins := wins[id := []];
      reply := Ok(());
    }

    /** ReleaseApplication. */
    method ReleaseApplication(app: Id, instance: Id, confirm: string) returns (reply: Reply<()>)
      modifies this
      ensures (View(), reply) == Release(old(View()), app, instance, confirm)
      ensures last == clock && Goes(old(View()), old(last), DoRelease(app, instance, confirm), View())
    {
      ReleaseGoes(View(), last, app, instance, confirm);
      hide Goes;
      last := clock;
      if app !in apps {
        return Err(NotFound);
      }
      if HasApplying(OfApp(rows, app), instance) {
        return Err(InProgress);
      }
      if HasOpenPlan(OfApp(rows, app), instance, clock) {
        return Err(PlanStands);
      }
      if instance !in instances || instances[instance].app != app || instances[instance].project != confirm {
        return Err(AdoptionChanged);
      }
      rows := DropPlans(rows, instance);
      instances := instances - {instance};
      resources := ForgetAll(resources, instance);
      reply := Ok(());
    }

    /** insertPlan. */
    method PlanDeployment(id: Id, instance: Id, services: seq<PlannedService>, revision: nat, correlation: string, clean: bool)
      returns (reply: Reply<()>)
      modifies this
      ensures (View(), reply) == InsertPlan(old(View()), id, instance, services, revision, correlation, clean)
      ensures last == clock && Goes(old(View()), old(last), DoPlan(id, instance, services, revision, correlation, clean), View())
    {
      PlanGoes(View(), last, id, instance, services, revision, correlation, clean);
      hide Goes;
      last := clock;
      if instance !in instances {
        return Err(AdoptionChanged);
      }
      var i := instances[instance];
      if !clean || i.mappingVersion < 1 {
        return Err(Blocked);
      }
      if HasApplying(rows, instance) {
        return Err(InProgress);
      }
      rows := DropPlans(rows, instance);
      rows := rows[id := Row(i.app, instance, i.endpoint, Apply, Planned, revision, i.mappingVersion,
                             Plan(i.project, i.namespace, services, []), clock, clock + PLAN_TTL, 0, None, "", correlation)];
      reply := Ok(());
    }

    /** applyDeployment. */
    method ApplyDeployment(app: Id, id: Id, confirm: string, allowed: bool, active: bool, fits: bool) returns (reply: Reply<()>)
      modifies this
      ensures (View(), reply) == ApplyPlan(old(View()), app, id, confirm, allowed, active, fits)
      ensures last == clock && Goes(old(View()), old(last), DoApply(app, id, confirm, allowed, active, fits), View())
    {
      ApplyGoes(View(), last, app, id, confirm, allowed, active, fits);
      hide Goes;
      last := clock;
      if app !in apps {
        return Err(NotFound);
      }
      if !allowed {
        return Err(Blocked);
      }
      if id !in rows || rows[id].app != app {
        return Err(NotFound);
      }
      var d := rows[id];
      if d.state == Applying {
        return Err(InProgress);
      }
      if confirm != d.plan.project {
        return Err(Invalid);
      }
      if d.kind != Apply || d.state != Planned || clock >= d.expiresAt || d.revision < 1 || d.revision > apps[app].head {
        return Err(AdoptionChanged);
      }
      if d.instance !in instances || instances[d.instance].endpoint != d.endpoint
         || instances[d.instance].mappingVersion != d.mappingVersion {
        return Err(AdoptionChanged);
      }
      if !active {
        return Err(EndpointOffline);
      }
      if d.correlation == "" || instances[d.instance].namespace != d.plan.namespace || !FrameBound(resources, d) {
        return Err(AdoptionChanged);
      }
      if !fits {
        return Err(Invalid);
      }
      rows := rows[id := d.(state := Applying, deadline := clock + APPLY_DEADLINE)];
      reply := Ok(());
    }

    /** systemTransition: select first, then update and audit each row under the same filter. */
    method SystemTransition(cause: Cause, affected: seq<Id>) returns (moved: nat)
      modifies this
      ensures View() == Push(old(View()), cause, affected)
      ensures |audit| == old(|audit|) + moved
      ensures last == clock && Goes(old(View()), old(last), DoPush(cause, affected), View())
    {
      PushGoes(View(), last, cause, affected);
      hide Goes;
      last := clock;
      moved := 0;
      for k := 0 to |affected|
        invariant View() == Push(old(View()), cause, affected[..k]) && last == clock == old(clock)
        invariant |audit| == old(|audit|) + moved
      {
        assert affected[..k + 1][..k] == affected[..k];
        var id := affected[k];
        if id in rows && Hit(cause, id, rows[id], clock) {
          audit := audit + [Audit(System, rows[id].kind, id, CauseLabel(cause))];
          rows := rows[id := Pushed(cause, rows[id], clock)];
          moved := moved + 1;
        }
      }
      assert affected[..|affected|] == affected;
    }

    /** SettleDeployment: every check, then every write. */
    method SettleDeployment(endpoint: Id, res: Result, readable: bool, storable: bool) returns (reply: Reply<()>)
      modifies this
      ensures (View(), reply) == Settle(old(View()), endpoint, res, readable, storable)
      ensures last == clock && Goes(old(View()), old(last), DoSettle(endpoint, res, readable, storable), View())
    {
      SettleGoes(View(), last, endpoint, res, readable, storable);
      hide Goes, Overtaken, Record, SettleApply, SettleRemoval;
      last := clock;
      if !readable {
        return Err(Unreadable);
      }
      if !storable {
        return Err(Invalid);
      }
      if !Settleable(rows, instances, res.deployment) || rows[res.deployment].endpoint != endpoint {
        return Err(NotFound);
      }
      var d := rows[res.deployment];
      if res.requestId != "" && res.requestId != d.correlation {
        return Err(Invalid);
      }
      var released := false;
      var rs := resources;
      if d.kind == Remove {
        var decided := DecideRemoval(resources, d.instance, endpoint, d.plan, res);
        if decided.Err? {
          return Err(decided.error);
        }
        rs, released := decided.value.resources, decided.value.released;
      } else {
        var decided := DecideApply(resources, d.instance, endpoint, d.plan, res);
        if decided.Err? {
          return Err(decided.error);
        }
        rs := decided.value;
      }
      Commit(res, rs, released);
      reply := Ok(());
    }

    /** The writes of an accepted result. */
    method Commit(res: Result, rs: Resources, released: bool)
      requires res.deployment in rows
      modifies `apps, `instances, `resources, `rows, `audit, `wins, `answered
      ensures View() == Record(old(View()), res, rs, released)
    {
      hide ExpirePlans, Advance;
      var d := rows[res.deployment];
      resources := rs;
      if released {
        instances := instances - {d.instance};
        if d.app in apps {
          apps := apps[d.app := apps[d.app].(removed := true)];
        }
      }
      rows := rows[res.deployment := d.(state := Ended(res.outcome), detail := "", settledAt := Some(clock))];
      if d.kind == Apply && res.outcome == Succeeded {
        if !released && d.instance in instances {
          instances := instances[d.instance := Advance(instances[d.instance], d.revision)];
        }
        wins := wins[d.instance := (if d.instance in wins then wins[d.instance] else []) + [Win(d.createdAt, d.revision, clock)]];
      }
      rows := ExpirePlans(rows, d.instance, d.createdAt, clock);
      answered := answered[d.instance := clock];
      audit := audit + [Audit(Agent(d.endpoint), d.kind, res.deployment, Reported(res.outcome))];
    }

    /** RefuseDeploymentResult. */
    method RefuseDeploymentResult(endpoint: Id, id: Id, detail: string) returns (reply: Reply<()>)
      modifies this
      ensures (View(), reply) == Refuse(old(View()), endpoint, id, detail)
      ensures last == clock && (detail == REFUSED_DETAIL ==> Goes(old(View()), old(last), DoRefuse(endpoint, id), View()))
    {
      RefuseGoes(View(), last, endpoint, id);
      hide Goes, Overtaken;
      last := clock;
      if !Settleable(rows, instances, id) || rows[id].endpoint != endpoint {
        return Err(NotFound);
      }
      var d := rows[id];
      if d.state == Applying || d.detail != detail {
        rows := rows[id := d.(state := Ended(Unknown), detail := detail)];
        audit := audit + [Audit(Agent(endpoint), d.kind, id, Refused)];
      }
      reply := Ok(());
    }

    /** RemoveApplication: the targets are the instance's containers as the query lists them. */
    method RemoveApplication(id: Id, app: Id, instance: Id, confirm: string, listing: seq<Key>, correlation: string, clear: bool)
      returns (reply: Reply<()>)
      modifies this
      ensures (View(), reply) == RemoveApp(old(View()), id, app, instance, confirm, listing, correlation, clear)
      ensures last == clock && Goes(old(View()), old(last), DoRemove(id, app, instance, confirm, listing, correlation, clear), View())
    {
      RemoveGoes(View(), last, id, app, instance, confirm, listing, correlation, clear);
      hide Goes;
      last := clock;
      if app !in apps {
        return Err(NotFound);
      }
      if instance !in instances || instances[instance].app != app {
        return Err(AdoptionChanged);
      }
      var i := instances[instance];
      if confirm != i.project {
        return Err(Invalid);
      }
      if HasApplying(rows, instance) {
        return Err(InProgress);
      }
      if HasOpenPlan(rows, instance, clock) {
        return Err(PlanStands);
      }
      var targets: seq<RemovalTarget> := [];
      if i.namespace == "" {
        if listing == [] || !Lists(resources, instance, i.endpoint, listing) {
          return Err(AdoptionChanged);
        }
        targets := ListTargets(resources, listing);
      }
      if LastApplyUnknown(rows, instance) || !clear {
        return Err(Blocked);
      }
      if !DistinctTargets(targets) {
        return Err(Invalid);
      }
      rows := DropPlans(rows, instance);
      rows := rows[id := Row(app, instance, i.endpoint, Remove, Applying, apps[app].head, i.mappingVersion,
                             Plan(i.project, i.namespace, [], targets), clock, clock + APPLY_DEADLINE,
                             clock + APPLY_DEADLINE, None, "", correlation)];
      reply := Ok(());
    }
  }

  lemma {:induction false} ClaimErr(rs: Resources, instance: Id, endpoint: Id, found: seq<Adopted>, k: nat)
    requires k <= |found| && Claim(rs, instance, endpoint, found[..k]).Err?
    ensures Claim(rs, instance, endpoint, found) == Claim(rs, instance, endpoint, found[..k])
    decreases |found|
  {
    if k == |found| {
      assert found[..k] == found;
    } else {
      var front := found[..|found| - 1];
      assert front[..k] == found[..k];
      ClaimErr(rs, instance, endpoint, front, k);
    }
  }
}
