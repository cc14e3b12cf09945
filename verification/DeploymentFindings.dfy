/** Runs that reach what the broadest statements about deployments would rule out. */
module DeploymentFindings {
  import opened Options
  import opened Deployments
  import opened SettleRules
  import opened RemovalRules
  import opened RepeatRules
  import opened DeploymentSteps
  import opened DeploymentPreserved
  import opened DeploymentMoves
  import opened DeploymentRuns
  import opened DeploymentExample

  // ----- An unknown result, sent twice -----

  const UNKNOWN: Result := Result("d", "r", Unknown, [], [])
  const MOVED: Result := Result("d", "r", Unknown, [], REPORTED)

  lemma UnknownTaken(db: Db)
    requires Settleable(db.rows, db.instances, "d") && db.rows["d"].endpoint == "e" && db.rows["d"].kind == Apply
    requires db.rows["d"].correlation == "r"
    ensures Settle(db, "e", UNKNOWN, true, true) == (Record(db, UNKNOWN, db.resources, false), Ok(()))
  {
    assert ApplyFits(db.rows["d"].plan, UNKNOWN);
    hide Settleable, Overtaken, Record;
  }

  /** Reporting nothing: taken twice, audited twice, and no container changes. */
  lemma UnknownIsTakenTwice()
    ensures var first := Settle(At(APPLYING_DB, 6), "e", UNKNOWN, true, true);
            var second := Settle(At(first.0, 7), "e", UNKNOWN, true, true);
            && Reachable(At(APPLYING_DB, 6)) && first.1.Ok? && second.1.Ok? && second.0.resources == first.0.resources
            && AuditCount(second.0.audit, "d") == AuditCount(first.0.audit, "d") + 1
  {
    var db := At(APPLYING_DB, 6);
    assert APPLYING_DB.clock == 5 && Mints(db, DoSettle("e", UNKNOWN, true, true));
    assert Settleable(db.rows, db.instances, "d") && ReportsPlaced(db.resources, db.rows["d"], "e", UNKNOWN) && Repeatable(db.rows["d"], UNKNOWN);
    assert db.rows["d"].endpoint == "e" && db.rows["d"].kind == Apply && db.rows["d"].correlation == "r" && UNKNOWN.deployment == "d";
    hide *;
    ApplyingReachable();
    Extend(APPLYING_DB, 6, DoSettle("e", UNKNOWN, true, true));
    UnknownTaken(db);
    ResentResult(db, "e", UNKNOWN, 7);
  }

  /** Reporting a service that moved: taken once, and refused the second time. */
  lemma MovedIsTakenOnce()
    ensures var first := Settle(At(APPLYING_DB, 6), "e", MOVED, true, true);
            var second := Settle(At(first.0, 7), "e", MOVED, true, true);
            Reachable(At(APPLYING_DB, 6)) && first.1.Ok? && second.1.Err? && second.0 == At(first.0, 7)
  {
    var db := At(APPLYING_DB, 6);
    assert APPLYING_DB.clock == 5 && Mints(db, DoSettle("e", MOVED, true, true));
    assert db.rows["d"].kind == Apply && db.rows["d"].plan == PLAN && PLAN.namespace == "" && MOVED.deployment == "d";
    MovedFacts(db);
    hide *;
    ApplyingReachable();
    Extend(APPLYING_DB, 6, DoSettle("e", MOVED, true, true));
    ResentResult(db, "e", MOVED, 7);
  }

  lemma MovedFacts(db: Db)
    requires db == At(APPLYING_DB, 6)
    ensures Settle(db, "e", MOVED, true, true).1.Ok? && !Repeatable(db.rows["d"], MOVED)
  {
    MovedRebinds();
    ByNameOne();
    assert REPORTED[0].containerId == "new";
    hide SettleApply, ExpirePlans, ByName, Record;
  }

  lemma MovedRebinds()
    ensures SettleApply(OLD, "i", "e", PLAN, MOVED) == Ok(NEW)
  {
    ByNameOne();
    hide ByName;
    assert ApplyFits(PLAN, MOVED);
    assert REPORTED[..0] == [];
    assert Rebind(OLD, "i", "e", PLAN, REPORTED[..0]) == Ok(OLD);
    assert OLD - {Key("e", "old")} == map[];
    assert RebindOne(OLD, "i", Key("e", "old"), REPORTED[0]) == Ok(NEW);
  }

  // ----- Two refusals of one deployment -----

  const SENT: Row := PLANNED.(state := Applying, deadline := 5 + APPLY_DEADLINE)
  const REFUSED_ROW: Row := SENT.(state := Ended(Unknown), detail := REFUSED_DETAIL)
  const REFUSED_ONCE: Db :=
    APPLYING_DB.(rows := map["d" := REFUSED_ROW], audit := [Audit(Agent("e"), Apply, "d", Refused)], clock := 6)
  const TOLD: Db :=
    REFUSED_ONCE.(rows := map["d" := SENT.(state := Ended(Unknown), settledAt := Some(7))], answered := map["i" := 7],
                  audit := REFUSED_ONCE.audit + [Audit(Agent("e"), Apply, "d", Reported(Unknown))], clock := 7)

  lemma RefuseOnce()
    ensures Step(At(APPLYING_DB, 6), DoRefuse("e", "d")) == REFUSED_ONCE
  {
  }

  lemma Tell()
    ensures Step(At(REFUSED_ONCE, 7), DoSettle("e", UNKNOWN, true, true)) == TOLD
  {
    TellExpires();
    assert Settleable(At(REFUSED_ONCE, 7).rows, REFUSED_ONCE.instances, "d");
    hide Settle, ExpirePlans, Overtaken;
    UnknownTaken(At(REFUSED_ONCE, 7));
    hide Settleable;
  }

  lemma TellExpires()
    ensures ExpirePlans(REFUSED_ONCE.rows["d" := SENT.(state := Ended(Unknown), settledAt := Some(7))], "i", 4, 7) == TOLD.rows
  {
    assert REFUSED_ONCE.rows["d" := SENT.(state := Ended(Unknown), settledAt := Some(7))] == TOLD.rows;
  }

  lemma RefuseTwice()
    ensures Step(At(TOLD, 8), DoRefuse("e", "d")).audit == TOLD.audit + [Audit(Agent("e"), Apply, "d", Refused)]
  {
  }

  lemma CountThree()
    ensures var audit := TOLD.audit + [Audit(Agent("e"), Apply, "d", Refused)];
            LabelCount(audit, "d", Refused) == 2 && LabelCount(audit, "d", Reported(Unknown)) == 1
  {
    var a, b := Audit(Agent("e"), Apply, "d", Refused), Audit(Agent("e"), Apply, "d", Reported(Unknown));
    assert [] + [a] == REFUSED_ONCE.audit;
    CountOne([], a, "d", Refused);
    CountOne([], a, "d", Reported(Unknown));
    CountOne(REFUSED_ONCE.audit, b, "d", Refused);
    CountOne(REFUSED_ONCE.audit, b, "d", Reported(Unknown));
    CountOne(TOLD.audit, a, "d", Refused);
    CountOne(TOLD.audit, a, "d", Reported(Unknown));
    assert LabelCount([], "d", Refused) == 0 && LabelCount([], "d", Reported(Unknown)) == 0;
  }

  /** Refused, told unknown, refused: two refusals for one accepted unknown result, so the bound is reached. */
  lemma RefusedTwice()
    ensures var db := Step(At(TOLD, 8), DoRefuse("e", "d"));
            Reachable(db) && LabelCount(db.audit, "d", Refused) == 2 == LabelCount(db.audit, "d", Reported(Unknown)) + 1
  {
    assert Mints(At(APPLYING_DB, 6), DoRefuse("e", "d")) && Mints(At(REFUSED_ONCE, 7), DoSettle("e", UNKNOWN, true, true));
    assert Mints(At(TOLD, 8), DoRefuse("e", "d"));
    assert APPLYING_DB.clock == 5 && REFUSED_ONCE.clock == 6 && TOLD.clock == 7;
    hide *;
    ApplyingReachable();
    RefuseOnce();
    Extend(APPLYING_DB, 6, DoRefuse("e", "d"));
    Tell();
    Extend(REFUSED_ONCE, 7, DoSettle("e", UNKNOWN, true, true));
    RefuseTwice();
    Extend(TOLD, 8, DoRefuse("e", "d"));
    CountThree();
  }

  // ----- Retention reopens a row -----

  const LEFT_UNKNOWN: Row := SENT.(state := Ended(Unknown), detail := DISCONNECTED)
  const UNKNOWN_DB: Db :=
    APPLYING_DB.(rows := map["d" := LEFT_UNKNOWN], audit := [Audit(System, Apply, "d", Abandoned)], clock := 6)
  const NEXT: Row := Row("a", "i", "e", Apply, Planned, 1, 1, PLAN, 7, 7 + PLAN_TTL, 0, None, "", "s")
  const NEXT_SENT: Row := NEXT.(state := Applying, deadline := 8 + APPLY_DEADLINE)
  const NEXT_FAILED: Row := NEXT_SENT.(state := Ended(Failed), settledAt := Some(9))
  const FAILED: Result := Result("n", "s", Failed, [], [])
  const NEXT_DB: Db := UNKNOWN_DB.(rows := map["d" := LEFT_UNKNOWN, "n" := NEXT], clock := 7)
  const NEXT_SENT_DB: Db := UNKNOWN_DB.(rows := map["d" := LEFT_UNKNOWN, "n" := NEXT_SENT], clock := 8)
  const NEXT_FAILED_DB: Db :=
    UNKNOWN_DB.(rows := map["d" := LEFT_UNKNOWN, "n" := NEXT_FAILED], answered := map["i" := 9],
                audit := UNKNOWN_DB.audit + [Audit(Agent("e"), Apply, "n", Reported(Failed))], clock := 9)
  const LATER: Stamp := 10 + HISTORY_RETENTION

  lemma ToUnknown()
    ensures Step(At(APPLYING_DB, 6), DoPush(Disconnect("e"), ["d"])) == UNKNOWN_DB
  {
    var db := At(APPLYING_DB, 6);
    assert ["d"][..0] == [];
    assert Push(db, Disconnect("e"), ["d"][..0]) == db;
  }

  lemma ToNext()
    ensures Mints(At(UNKNOWN_DB, 7), DoPlan("n", "i", SERVICES, 1, "s", true))
    ensures Step(At(UNKNOWN_DB, 7), DoPlan("n", "i", SERVICES, 1, "s", true)) == NEXT_DB
  {
    assert DropPlans(UNKNOWN_DB.rows, "i") == UNKNOWN_DB.rows;
  }

  lemma ToNextSent()
    ensures Step(At(NEXT_DB, 8), DoApply("a", "n", "p", true, true, true)) == NEXT_SENT_DB
  {
    NextIsBound();
    hide FrameBound;
  }

  lemma NextIsBound()
    ensures FrameBound(OLD, NEXT) && 8 < NEXT.expiresAt && NEXT_DB.rows["n" := NEXT_SENT] == NEXT_SENT_DB.rows
  {
  }

  lemma ToNextFailed()
    ensures Step(At(NEXT_SENT_DB, 9), DoSettle("e", FAILED, true, true)) == NEXT_FAILED_DB
  {
    FailedRules();
    FailedExpires();
    hide SettleApply, ExpirePlans;
    var db := At(NEXT_SENT_DB, 9);
    assert Settle(db, "e", FAILED, true, true).0 == Record(db, FAILED, OLD, false);
    hide Settle;
  }

  lemma FailedRules()
    ensures SettleApply(OLD, "i", "e", PLAN, FAILED) == Ok(OLD)
  {
    assert ApplyFits(PLAN, FAILED);
  }

  lemma FailedExpires()
    ensures ExpirePlans(NEXT_SENT_DB.rows["n" := NEXT_FAILED], "i", 7, 9) == NEXT_FAILED_DB.rows
  {
    var rows := NEXT_SENT_DB.rows["n" := NEXT_FAILED];
    assert rows == map["d" := LEFT_UNKNOWN, "n" := NEXT_FAILED];
    NoneToExpire(rows, "i", 7, 9);
  }

  lemma NoneToExpire(rows: map<Id, Row>, instance: Id, after: Stamp, now: Stamp)
    requires forall id :: id in rows ==> rows[id].state != Planned
    ensures ExpirePlans(rows, instance, after, now) == rows
  {
  }

  /** Only the settled row is old enough to go: the unknown one has no settling time. */
  lemma PruneNext()
    ensures var db := Step(At(NEXT_FAILED_DB, LATER), DoPrune({"d", "n"}));
            db.rows == map["d" := LEFT_UNKNOWN] && db.instances == APPLYING_DB.instances
  {
    var db := At(NEXT_FAILED_DB, LATER);
    assert !RollbackTarget(db, "n");
    assert Prunable(db, "n", 10) && !Prunable(db, "d", 10);
    hide Prunable;
  }

  /** The deletion of a newer failed row lets an unknown row take a result again. */
  lemma RetentionReopens()
    ensures Reachable(NEXT_FAILED_DB) && !Settleable(NEXT_FAILED_DB.rows, NEXT_FAILED_DB.instances, "d")
    ensures var db := Step(At(NEXT_FAILED_DB, LATER), DoPrune({"d", "n"})); Reachable(db) && Settleable(db.rows, db.instances, "d")
  {
    ClosedByNext();
    PruneNext();
    OpenAlone();
    hide *;
    ReopeningRun();
  }

  lemma ClosedByNext()
    ensures !Settleable(NEXT_FAILED_DB.rows, NEXT_FAILED_DB.instances, "d")
  {
    assert NEXT_FAILED_DB.rows["n"].createdAt > NEXT_FAILED_DB.rows["d"].createdAt;
  }

  lemma OpenAlone()
    ensures Settleable(map["d" := LEFT_UNKNOWN], APPLYING_DB.instances, "d")
  {
    assert !Overtaken(map["d" := LEFT_UNKNOWN], "d");
  }

  lemma ReopeningRun()
    ensures Reachable(NEXT_FAILED_DB) && Reachable(Step(At(NEXT_FAILED_DB, LATER), DoPrune({"d", "n"})))
  {
    assert Mints(At(APPLYING_DB, 6), DoPush(Disconnect("e"), ["d"])) && Mints(At(NEXT_DB, 8), DoApply("a", "n", "p", true, true, true));
    assert Mints(At(NEXT_SENT_DB, 9), DoSettle("e", FAILED, true, true)) && Mints(At(NEXT_FAILED_DB, LATER), DoPrune({"d", "n"}));
    assert APPLYING_DB.clock == 5 && UNKNOWN_DB.clock == 6 && NEXT_DB.clock == 7 && NEXT_SENT_DB.clock == 8 && NEXT_FAILED_DB.clock == 9 < LATER;
    hide *;
    ApplyingReachable();
    ToUnknown();
    Extend(APPLYING_DB, 6, DoPush(Disconnect("e"), ["d"]));
    ToNext();
    Extend(UNKNOWN_DB, 7, DoPlan("n", "i", SERVICES, 1, "s", true));
    ToNextSent();
    Extend(NEXT_DB, 8, DoApply("a", "n", "p", true, true, true));
    ToNextFailed();
    Extend(NEXT_SENT_DB, 9, DoSettle("e", FAILED, true, true));
    Extend(NEXT_FAILED_DB, LATER, DoPrune({"d", "n"}));
  }

  // ----- An answer whose planned container is not in place -----

  const PAIR_FOUND: seq<Adopted> := [Adopted("c1", "a", "image", 1), Adopted("c2", "b", "image", 1)]
  const PAIR: seq<PlannedService> := [PlannedService("A", "c1", "image", "", None), PlannedService("B", "c2", "image", "", None)]
  const PAIR_PLAN: Plan := Plan("p", "", PAIR, [])
  const BOTH_NAMES: map<Id, string> := map["c1" := "A", "c2" := "B"]
  const ONE_NAME: map<Id, string> := map["c1" := "A"]

  const C1: Resource := Resource("i", "a", "image", 1, "A")
  const C2: Resource := Resource("i", "b", "image", 1, "B")
  const B1: Resource := Resource("i", "b", "image", 2, "")
  const PAIR_CLAIMED: Resources := map[Key("e", "c1") := C1.(service := ""), Key("e", "c2") := C2.(service := "")]
  const PAIR_HELD: Resources := map[Key("e", "c1") := C1, Key("e", "c2") := C2]
  const B_MOVED: Resources := map[Key("e", "c1") := C1, Key("e", "b1") := B1.(service := "B")]
  const B_CLEARED: Resources := map[Key("e", "c1") := C1, Key("e", "b1") := B1]
  const A_IN_C2: Resources := map[Key("e", "b1") := B1, Key("e", "c2") := Resource("i", "a", "image", 3, "A")]
  const A_LOST: Resources := map[Key("e", "b1") := B1, Key("e", "n") := Resource("i", "a", "image", 3, "B")]
  const SWAPPED: Resources := map[Key("e", "b1") := B1, Key("e", "c1") := Resource("i", "a", "image", 3, "B")]

  const PAIR_ROW: Row := Row("a", "i", "e", Apply, Planned, 1, 1, PAIR_PLAN, 4, 4 + PLAN_TTL, 0, None, "", "r")
  const PAIR_SENT: Row := PAIR_ROW.(state := Applying, deadline := 5 + APPLY_DEADLINE)
  const PAIR_UNKNOWN: Row := PAIR_SENT.(state := Ended(Unknown), settledAt := Some(6))
  const PAIR_ADOPTED_DB: Db := ADOPTED_DB.(resources := PAIR_CLAIMED)
  const PAIR_MAPPED_DB: Db := MAPPED_DB.(resources := PAIR_HELD)
  const PAIR_PLANNED_DB: Db := PAIR_MAPPED_DB.(rows := map["d" := PAIR_ROW], clock := 4)
  const PAIR_SENT_DB: Db := PAIR_MAPPED_DB.(rows := map["d" := PAIR_SENT], clock := 5)
  const B_MOVED_DB: Db :=
    PAIR_MAPPED_DB.(rows := map["d" := PAIR_UNKNOWN], resources := B_MOVED, answered := map["i" := 6],
                    audit := [Audit(Agent("e"), Apply, "d", Reported(Unknown))], clock := 6)
  const B_CLEARED_DB: Db :=
    B_MOVED_DB.(resources := B_CLEARED, instances := map["i" := Instance("a", "e", "p", "", 2, 0, 0)], clock := 7)

  const B_REPORT: seq<Identity> := [Identity("B", "b1", "image", 2, "", "", "", "")]
  const B_RESULT: Result := Result("d", "r", Unknown, [], B_REPORT)
  const BOTH: seq<Identity> := [Identity("A", "c2", "image", 3, "", "", "", ""), Identity("B", "n", "image", 3, "", "", "", "")]
  const BOTH_RESULT: Result := Result("d", "r", Succeeded, [], BOTH)
  const SWAP: seq<Identity> := [BOTH[0], Identity("B", "c1", "image", 3, "", "", "", "")]
  const SWAP_RESULT: Result := Result("d", "r", Unknown, [], SWAP)

  lemma PairByName()
    ensures ByName(PAIR) == map["A" := PAIR[0], "B" := PAIR[1]]
  {
    assert PAIR[..1] == [PAIR[0]] && [PAIR[0]][..0] == [];
    assert ByName([PAIR[0]][..0]) == map[];
    assert ByName([PAIR[0]]) == map["A" := PAIR[0]];
  }

  lemma PairClaim()
    ensures Claim(map[], "i", "e", PAIR_FOUND) == Ok(PAIR_CLAIMED)
  {
    assert PAIR_FOUND[..1] == [PAIR_FOUND[0]] && [PAIR_FOUND[0]][..0] == [];
    assert Claim(map[], "i", "e", [PAIR_FOUND[0]][..0]) == Ok(map[]);
    assert Claim(map[], "i", "e", [PAIR_FOUND[0]]) == Ok(map[Key("e", "c1") := C1.(service := "")]);
  }

  lemma BRebinds()
    ensures SettleApply(PAIR_HELD, "i", "e", PAIR_PLAN, B_RESULT) == Ok(B_MOVED)
  {
    PairByName();
    hide ByName;
    assert ApplyFits(PAIR_PLAN, B_RESULT);
    assert B_REPORT[..0] == [];
    assert Rebind(PAIR_HELD, "i", "e", PAIR_PLAN, B_REPORT[..0]) == Ok(PAIR_HELD);
    assert PAIR_HELD - {Key("e", "c2")} == map[Key("e", "c1") := C1];
    assert RebindOne(PAIR_HELD, "i", Key("e", "c2"), B_REPORT[0]) == Ok(B_MOVED);
  }

  lemma ARebinds()
    ensures RebindOne(B_CLEARED, "i", Key("e", "c1"), BOTH[0]) == Ok(A_IN_C2)
  {
    assert B_CLEARED - {Key("e", "c1")} == map[Key("e", "b1") := B1];
  }

  lemma ThenBRebinds()
    ensures RebindOne(A_IN_C2, "i", Key("e", "c2"), BOTH[1]) == Ok(A_LOST)
    ensures RebindOne(A_IN_C2, "i", Key("e", "c2"), SWAP[1]) == Ok(SWAPPED)
  {
    assert A_IN_C2 - {Key("e", "c2")} == map[Key("e", "b1") := B1];
  }

  /** An answer that puts A where B was planned, and B anywhere: both rebindings, one after the other. */
  lemma BothRebind(res: Result, last: Resources)
    requires |res.services| == 2 && res.services[0] == BOTH[0] && res.services[1].service == "B" && ApplyFits(PAIR_PLAN, res)
    requires RebindOne(A_IN_C2, "i", Key("e", "c2"), res.services[1]) == Ok(last)
    ensures SettleApply(B_CLEARED, "i", "e", PAIR_PLAN, res) == Ok(last)
    ensures !InPlace(B_CLEARED, "e", PAIR_PLAN, res.services)
  {
    var ids := res.services;
    PairByName();
    hide ByName, ApplyFits;
    assert OldKey(PAIR_PLAN, "e", ids[0]) == Key("e", "c1") && OldKey(PAIR_PLAN, "e", ids[1]) == Key("e", "c2");
    ARebinds();
    hide RebindOne;
    assert ids[..1] == [ids[0]] && [ids[0]][..0] == [];
    assert Rebind(B_CLEARED, "i", "e", PAIR_PLAN, [ids[0]][..0]) == Ok(B_CLEARED);
    assert Rebind(B_CLEARED, "i", "e", PAIR_PLAN, ids[..1]) == RebindOne(B_CLEARED, "i", Key("e", "c1"), BOTH[0]);
    assert !InPlace(B_CLEARED, "e", PAIR_PLAN, ids) by {
      assert OldKey(PAIR_PLAN, "e", ids[1]) !in B_CLEARED;
    }
  }

  lemma BothFit()
    ensures ApplyFits(PAIR_PLAN, BOTH_RESULT) && ApplyFits(PAIR_PLAN, SWAP_RESULT)
  {
    PairByName();
    hide ByName;
  }

  lemma PairAdopts()
    ensures Mints(At(CREATED_DB, 2), DoAdopt("i", "a", "e", "p", PAIR_FOUND, true))
    ensures Step(At(CREATED_DB, 2), DoAdopt("i", "a", "e", "p", PAIR_FOUND, true)) == PAIR_ADOPTED_DB
  {
    PairClaim();
    hide Claim;
  }

  lemma PairMaps()
    ensures Mints(At(PAIR_ADOPTED_DB, 3), DoRemap("i", BOTH_NAMES, true))
    ensures Step(At(PAIR_ADOPTED_DB, 3), DoRemap("i", BOTH_NAMES, true)) == PAIR_MAPPED_DB
  {
    PairNames();
    hide Rename;
  }

  lemma PairNames()
    ensures Rename(PAIR_CLAIMED, "i", BOTH_NAMES) == PAIR_HELD
  {
  }

  lemma PairPlans()
    ensures Mints(At(PAIR_MAPPED_DB, 4), DoPlan("d", "i", PAIR, 1, "r", true))
    ensures Step(At(PAIR_MAPPED_DB, 4), DoPlan("d", "i", PAIR, 1, "r", true)) == PAIR_PLANNED_DB
  {
    assert DropPlans(map[], "i")["d" := PAIR_ROW] == map["d" := PAIR_ROW];
  }

  lemma PairApplies()
    ensures Mints(At(PAIR_PLANNED_DB, 5), DoApply("a", "d", "p", true, true, true))
    ensures Step(At(PAIR_PLANNED_DB, 5), DoApply("a", "d", "p", true, true, true)) == PAIR_SENT_DB
  {
    PairIsBound();
    hide FrameBound;
  }

  lemma PairIsBound()
    ensures FrameBound(PAIR_HELD, PAIR_ROW) && 5 < PAIR_ROW.expiresAt
    ensures PAIR_PLANNED_DB.rows["d" := PAIR_SENT] == PAIR_SENT_DB.rows
  {
  }

  lemma BExpires()
    ensures ExpirePlans(PAIR_SENT_DB.rows["d" := PAIR_UNKNOWN], "i", 4, 6) == B_MOVED_DB.rows
  {
    assert PAIR_SENT_DB.rows["d" := PAIR_UNKNOWN] == B_MOVED_DB.rows;
  }

  lemma BMoves()
    ensures Mints(At(PAIR_SENT_DB, 6), DoSettle("e", B_RESULT, true, true))
    ensures Step(At(PAIR_SENT_DB, 6), DoSettle("e", B_RESULT, true, true)) == B_MOVED_DB
  {
    BRebinds();
    BExpires();
    hide SettleApply, ExpirePlans;
    var db := At(PAIR_SENT_DB, 6);
    assert Settle(db, "e", B_RESULT, true, true).0 == Record(db, B_RESULT, B_MOVED, false);
    hide Settle;
  }

  lemma BCleared()
    ensures Mints(At(B_MOVED_DB, 7), DoRemap("i", ONE_NAME, true))
    ensures Step(At(B_MOVED_DB, 7), DoRemap("i", ONE_NAME, true)) == B_CLEARED_DB
  {
    BRenames();
    NoneApplying();
    hide Rename, HasApplying;
  }

  lemma NoneApplying()
    ensures !HasApplying(B_MOVED_DB.rows, "i")
  {
  }

  lemma BRenames()
    ensures Rename(B_MOVED, "i", ONE_NAME) == B_CLEARED
  {
  }

  lemma PairRun()
    ensures Reachable(B_CLEARED_DB) && Reachable(At(B_CLEARED_DB, 8))
  {
    assert EMPTY.clock == 0 && CREATED_DB.clock == 1 && PAIR_ADOPTED_DB.clock == 2 && PAIR_MAPPED_DB.clock == 3;
    assert PAIR_PLANNED_DB.clock == 4 && PAIR_SENT_DB.clock == 5 && B_MOVED_DB.clock == 6 && B_CLEARED_DB.clock == 7;
    assert Mints(At(B_CLEARED_DB, 8), DoSaveRevision("a"));
    hide *;
    Begins();
    Extend(EMPTY, 1, DoCreateApp("a"));
    PairAdopts();
    Extend(CREATED_DB, 2, DoAdopt("i", "a", "e", "p", PAIR_FOUND, true));
    PairMaps();
    Extend(PAIR_ADOPTED_DB, 3, DoRemap("i", BOTH_NAMES, true));
    PairPlans();
    Extend(PAIR_MAPPED_DB, 4, DoPlan("d", "i", PAIR, 1, "r", true));
    PairApplies();
    Extend(PAIR_PLANNED_DB, 5, DoApply("a", "d", "p", true, true, true));
    BMoves();
    Extend(PAIR_SENT_DB, 6, DoSettle("e", B_RESULT, true, true));
    BCleared();
    Extend(B_MOVED_DB, 7, DoRemap("i", ONE_NAME, true));
    Extend(B_CLEARED_DB, 8, DoSaveRevision("a"));
  }

  /** Some container of the store carries the service. */
  predicate Served(rs: Resources, service: string) {
    exists k :: k in rs && rs[k].service == service
  }

  /**
   Service B moves by an unknown result, a new mapping takes its name from the new container, and a
   success then reports A in the container B was planned to replace: it is accepted, and service A,
   bound until then, is bound to nothing.
   */
  lemma ServiceIsLost()
    ensures var r := Settle(At(B_CLEARED_DB, 8), "e", BOTH_RESULT, true, true);
            && Reachable(At(B_CLEARED_DB, 8)) && r.1.Ok? && !InPlace(B_CLEARED, "e", PAIR_PLAN, BOTH)
            && Served(B_CLEARED_DB.resources, "A") && !Served(r.0.resources, "A")
  {
    BothFit();
    ThenBRebinds();
    BothRebind(BOTH_RESULT, A_LOST);
    assert BOTH_RESULT.deployment == "d" && BOTH_RESULT.requestId == "r" && BOTH_RESULT.services == BOTH;
    AServed();
    hide *;
    ClearedTakes(BOTH_RESULT, A_LOST);
    PairRun();
  }

  lemma AServed()
    ensures Served(B_CLEARED_DB.resources, "A") && !Served(A_LOST, "A")
  {
    assert B_CLEARED[Key("e", "c1")].service == "A";
  }

  lemma ClearedTakes(res: Result, rs: Resources)
    requires res.deployment == "d" && res.requestId == "r" && SettleApply(B_CLEARED, "i", "e", PAIR_PLAN, res) == Ok(rs)
    ensures var r := Settle(At(B_CLEARED_DB, 8), "e", res, true, true); r.1.Ok? && r.0.resources == rs
  {
    var db := At(B_CLEARED_DB, 8);
    assert !Overtaken(db.rows, "d");
    assert Settleable(db.rows, db.instances, "d");
    hide SettleApply, ExpirePlans, Overtaken;
    assert Settle(db, "e", res, true, true) == (Record(db, res, rs, false), Ok(()));
    hide Settle;
  }

  /**
   In the same store an unknown result that reports A and B in each other's planned containers is
   accepted twice, though both services moved: the reported containers are the planned ones.
   */
  lemma SwapIsTakenTwice()
    ensures var first := Settle(At(B_CLEARED_DB, 8), "e", SWAP_RESULT, true, true);
            var second := Settle(At(first.0, 9), "e", SWAP_RESULT, true, true);
            && Reachable(At(B_CLEARED_DB, 8)) && !Unmoved(PAIR_PLAN, SWAP) && first.1.Ok? && second.1.Ok?
            && AuditCount(second.0.audit, "d") == AuditCount(first.0.audit, "d") + 1
  {
    BothFit();
    ThenBRebinds();
    BothRebind(SWAP_RESULT, SWAPPED);
    SwapPermutes();
    assert SWAP_RESULT.deployment == "d" && SWAP_RESULT.requestId == "r";
    hide *;
    ClearedTakes(SWAP_RESULT, SWAPPED);
    PairRun();
    ResentResult(At(B_CLEARED_DB, 8), "e", SWAP_RESULT, 9);
  }

  lemma SwapPermutes()
    ensures "d" in At(B_CLEARED_DB, 8).rows && Repeatable(At(B_CLEARED_DB, 8).rows["d"], SWAP_RESULT) && !Unmoved(PAIR_PLAN, SWAP)
  {
    PairByName();
    hide ByName;
    assert SWAP[..1] == [SWAP[0]] && [SWAP[0]][..0] == [];
    assert News("e", [SWAP[0]][..0]) == {} && Olds(PAIR_PLAN, "e", [SWAP[0]][..0]) == {};
    assert News("e", [SWAP[0]]) == {Key("e", "c2")} && Olds(PAIR_PLAN, "e", [SWAP[0]]) == {Key("e", "c1")};
    assert News("e", SWAP) == {Key("e", "c1"), Key("e", "c2")} == Olds(PAIR_PLAN, "e", SWAP);
    assert SWAP[0].containerId != ByName(PAIR)["A"].containerId;
  }
}
