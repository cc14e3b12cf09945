/** A run that goes all the way: an application is adopted, mapped, planned, applied, and its agent reports success. */
module DeploymentExample {
  import opened Options
  import opened Deployments
  import opened SettleRules
  import opened DeploymentSteps
  import opened DeploymentPreserved
  import opened DeploymentMoves
  import opened DeploymentRuns

  /** A reachable store takes any transaction later. */
  lemma Extend(db: Db, now: Stamp, op: Op)
    requires Reachable(db) && now > db.clock && Mints(At(db, now), op)
    ensures Reachable(At(db, now)) && Reachable(Step(At(db, now), op))
  {
    hide Step, Mints;
    var events :| Legal(EMPTY, events) && Run(EMPTY, events).clock <= db.clock && At(Run(EMPTY, events), db.clock) == db;
    assert At(Run(EMPTY, events), now) == At(db, now);
    StepReaches(At(db, now), Run(EMPTY, events).clock, op);
  }

  const SERVICES: seq<PlannedService> := [PlannedService("web", "old", "image", "", None)]
  const FOUND: seq<Adopted> := [Adopted("old", "web", "image", 1)]
  const REPORTED: seq<Identity> := [Identity("web", "new", "image", 2, "", "", "", "")]
  const RESULT: Result := Result("d", "r", Succeeded, [], REPORTED)
  const PLAN: Plan := Plan("p", "", SERVICES, [])
  const PLANNED: Row := Row("a", "i", "e", Apply, Planned, 1, 1, PLAN, 4, 4 + PLAN_TTL, 0, None, "", "r")
  const ADOPTED: Resources := map[Key("e", "old") := Resource("i", "web", "image", 1, "")]
  const OLD: Resources := map[Key("e", "old") := Resource("i", "web", "image", 1, "web")]
  const NEW: Resources := map[Key("e", "new") := Resource("i", "web", "image", 2, "web")]

  const CREATED_DB: Db := EMPTY.(apps := map["a" := Application(1, false)], clock := 1)
  const ADOPTED_DB: Db :=
    CREATED_DB.(instances := map["i" := Instance("a", "e", "p", "", 0, 0, 0)], resources := ADOPTED, wins := map["i" := []], clock := 2)
  const BINDINGS: map<Id, string> := map["old" := "web"]
  const MAPPED_DB: Db :=
    ADOPTED_DB.(instances := map["i" := Instance("a", "e", "p", "", 1, 0, 0)], resources := OLD, clock := 3)
  const PLANNED_DB: Db := MAPPED_DB.(rows := map["d" := PLANNED], clock := 4)
  const APPLYING_DB: Db := PLANNED_DB.(rows := map["d" := PLANNED.(state := Applying, deadline := 5 + APPLY_DEADLINE)], clock := 5)

  lemma AdoptStep()
    ensures Mints(At(CREATED_DB, 2), DoAdopt("i", "a", "e", "p", FOUND, true))
    ensures Step(At(CREATED_DB, 2), DoAdopt("i", "a", "e", "p", FOUND, true)) == ADOPTED_DB
  {
    assert FOUND[..0] == [];
    assert Claim(map[], "i", "e", FOUND[..0]) == Ok(map[]);
    assert Claim(map[], "i", "e", FOUND) == Ok(ADOPTED);
  }

  lemma MapStep()
    ensures Mints(At(ADOPTED_DB, 3), DoRemap("i", BINDINGS, true))
    ensures Step(At(ADOPTED_DB, 3), DoRemap("i", BINDINGS, true)) == MAPPED_DB
  {
    assert Rename(ADOPTED, "i", BINDINGS) == OLD;
  }

  lemma PlanStep()
    ensures Mints(At(MAPPED_DB, 4), DoPlan("d", "i", SERVICES, 1, "r", true))
    ensures Step(At(MAPPED_DB, 4), DoPlan("d", "i", SERVICES, 1, "r", true)) == PLANNED_DB
  {
    assert DropPlans(map[], "i")["d" := PLANNED] == map["d" := PLANNED];
  }

  lemma ApplyStep()
    ensures Mints(At(PLANNED_DB, 5), DoApply("a", "d", "p", true, true, true))
    ensures Step(At(PLANNED_DB, 5), DoApply("a", "d", "p", true, true, true)) == APPLYING_DB
  {
    Bound();
    hide FrameBound;
  }

  lemma Bound()
    ensures FrameBound(OLD, PLANNED) && 5 < PLANNED.expiresAt
  {
  }

  lemma ByNameOne()
    ensures ByName(SERVICES) == map["web" := SERVICES[0]]
  {
    assert SERVICES[..0] == [];
    assert ByName(SERVICES[..0]) == map[];
  }

  lemma Rebound()
    ensures SettleApply(OLD, "i", "e", PLAN, RESULT) == Ok(NEW)
  {
    ByNameOne();
    hide ByName;
    assert ApplyFits(PLAN, RESULT);
    assert REPORTED[..0] == [];
    assert Rebind(OLD, "i", "e", PLAN, REPORTED[..0]) == Ok(OLD);
    assert OLD - {Key("e", "old")} == map[];
    assert RebindOne(OLD, "i", Key("e", "old"), REPORTED[0]) == Ok(NEW);
  }

  lemma SettleStep()
    ensures var db := Step(At(APPLYING_DB, 6), DoSettle("e", RESULT, true, true));
            "i" in db.instances && db.instances["i"].current == 1 && db.resources == NEW && |db.audit| == 1
  {
    Rebound();
    hide SettleApply, ExpirePlans;
    assert Settle(At(APPLYING_DB, 6), "e", RESULT, true, true).0 == Record(At(APPLYING_DB, 6), RESULT, NEW, false);
  }

  lemma Begins()
    ensures Reachable(EMPTY) && Mints(At(EMPTY, 1), DoCreateApp("a")) && Step(At(EMPTY, 1), DoCreateApp("a")) == CREATED_DB
  {
    assert Legal(EMPTY, []) && Run(EMPTY, []) == EMPTY;
  }

  lemma ApplyingReachable()
    ensures Reachable(APPLYING_DB)
  {
    assert EMPTY.clock == 0 && CREATED_DB.clock == 1 && ADOPTED_DB.clock == 2 && MAPPED_DB.clock == 3 && PLANNED_DB.clock == 4;
    hide *;
    Begins();
    Extend(EMPTY, 1, DoCreateApp("a"));
    AdoptStep();
    Extend(CREATED_DB, 2, DoAdopt("i", "a", "e", "p", FOUND, true));
    MapStep();
    Extend(ADOPTED_DB, 3, DoRemap("i", BINDINGS, true));
    PlanStep();
    Extend(MAPPED_DB, 4, DoPlan("d", "i", SERVICES, 1, "r", true));
    ApplyStep();
    Extend(PLANNED_DB, 5, DoApply("a", "d", "p", true, true, true));
  }

  /** The applied revision is current, the service is bound to the new container, and one audit row says so. */
  lemma ApplySucceeds()
    ensures var db := Step(At(APPLYING_DB, 6), DoSettle("e", RESULT, true, true));
            && Reachable(db) && "i" in db.instances && db.instances["i"].current == 1
            && db.resources == NEW && |db.audit| == 1
  {
    SettleStep();
    assert APPLYING_DB.clock == 5 && Mints(At(APPLYING_DB, 6), DoSettle("e", RESULT, true, true));
    hide *;
    ApplyingReachable();
    Extend(APPLYING_DB, 6, DoSettle("e", RESULT, true, true));
  }
}
