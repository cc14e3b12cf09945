/** What the same result does to an instance's containers when it is settled a second time. */
module RepeatRules {
  import opened Deployments
  import opened SettleRules
  import opened RemovalRules

  /** Every reported service still runs in the container it was planned to replace. */
  predicate Unmoved(plan: Plan, ids: seq<Identity>) {
    forall m :: 0 <= m < |ids| ==>
      ids[m].service in ByName(plan.services) && ids[m].containerId == ByName(plan.services)[ids[m].service].containerId
  }

  /** No other container of the instance carries the service. */
  ghost predicate Sole(rs: Resources, instance: Id, endpoint: Id, idn: Identity) {
    idn.service != "" ==>
      forall k :: k in rs && rs[k].instance == instance && rs[k].service == idn.service ==> k == NewKey(endpoint, idn)
  }

  /** The reported container is there and is as reported. */
  predicate Carries(rs: Resources, instance: Id, endpoint: Id, idn: Identity) {
    && NewKey(endpoint, idn) in rs
    && rs[NewKey(endpoint, idn)] == Resource(instance, rs[NewKey(endpoint, idn)].name, idn.imageId, idn.createdUnix, idn.service)
  }

  lemma OneStaysSole(rs: Resources, instance: Id, endpoint: Id, from: Key, idn: Identity, other: Identity)
    requires RebindOne(rs, instance, from, idn).Ok? && from.endpoint == endpoint
    requires other == idn || (other.service != idn.service && Sole(rs, instance, endpoint, other))
    ensures Sole(RebindOne(rs, instance, from, idn).value, instance, endpoint, other)
  {
  }

  /** After a rebinding each reported service is carried by its reported container alone. */
  lemma {:induction false} RebindSole(rs: Resources, instance: Id, endpoint: Id, plan: Plan, ids: seq<Identity>, i: nat)
    requires AllPlanned(plan, ids) && DistinctServices(ids) && i < |ids|
    requires Rebind(rs, instance, endpoint, plan, ids).Ok?
    ensures Sole(Rebind(rs, instance, endpoint, plan, ids).value, instance, endpoint, ids[i])
  {
    hide RebindOne, Sole;
    var n := |ids| - 1;
    var mid := Rebind(rs, instance, endpoint, plan, ids[..n]).value;
    if i < n {
      RebindSole(rs, instance, endpoint, plan, ids[..n], i);
    }
    OneStaysSole(mid, instance, endpoint, OldKey(plan, endpoint, ids[n]), ids[n], ids[i]);
  }

  lemma OneIsIdle(rs: Resources, instance: Id, endpoint: Id, idn: Identity)
    requires Carries(rs, instance, endpoint, idn) && Sole(rs, instance, endpoint, idn)
    ensures RebindOne(rs, instance, NewKey(endpoint, idn), idn) == Ok(rs)
  {
    var k := NewKey(endpoint, idn);
    assert (rs - {k})[k := rs[k]] == rs;
  }

  /** Rebinding services that are where they are changes nothing. */
  lemma {:induction false} RebindIdle(rs: Resources, instance: Id, endpoint: Id, plan: Plan, ids: seq<Identity>)
    requires AllPlanned(plan, ids) && Unmoved(plan, ids)
    requires forall i :: 0 <= i < |ids| ==> Carries(rs, instance, endpoint, ids[i]) && Sole(rs, instance, endpoint, ids[i])
    ensures Rebind(rs, instance, endpoint, plan, ids) == Ok(rs)
  {
    hide RebindOne, Sole, Carries;
    if ids != [] {
      RebindIdle(rs, instance, endpoint, plan, ids[..|ids| - 1]);
      OneIsIdle(rs, instance, endpoint, ids[|ids| - 1]);
    }
  }

  lemma {:induction false} FirstMoved(plan: Plan, ids: seq<Identity>) returns (k: nat)
    requires AllPlanned(plan, ids) && !Unmoved(plan, ids)
    ensures k < |ids| && Unmoved(plan, ids[..k])
    ensures ids[k].containerId != ByName(plan.services)[ids[k].service].containerId
  {
    k := |ids| - 1;
    if !Unmoved(plan, ids[..k]) {
      k := FirstMoved(plan, ids[..k]);
      assert ids[..|ids| - 1][..k] == ids[..k];
    }
  }

  lemma SettledCarries(rs: Resources, rs': Resources, instance: Id, endpoint: Id, plan: Plan, ids: seq<Identity>, i: nat)
    requires AllPlanned(plan, ids) && ExactlyMoved(rs, rs', instance, endpoint, plan, ids) && i < |ids|
    ensures Carries(rs', instance, endpoint, ids[i])
  {
    assert Moved(rs, rs', instance, endpoint, plan, ids[i]);
  }

  /** The second time, the first service that moved finds its reported container taken, or its planned one gone. */
  lemma MovedIsRefused(rs: Resources, instance: Id, endpoint: Id, plan: Plan, ids: seq<Identity>, k: nat)
    requires AllPlanned(plan, ids) && k < |ids| && Carries(rs, instance, endpoint, ids[k])
    requires ids[k].containerId != ByName(plan.services)[ids[k].service].containerId
    requires Rebind(rs, instance, endpoint, plan, ids[..k]) == Ok(rs)
    ensures Rebind(rs, instance, endpoint, plan, ids).Err?
  {
    assert ids[..k + 1][..k] == ids[..k];
    assert Rebind(rs, instance, endpoint, plan, ids[..k + 1]).Err?;
    RebindErr(rs, instance, endpoint, plan, ids, k + 1);
  }

  lemma ReportsStand(rs: Resources, instance: Id, endpoint: Id, plan: Plan, res: Result)
    requires plan.namespace == "" && DistinctPlan(plan) && InPlace(rs, endpoint, plan, res.services)
    requires SettleApply(rs, instance, endpoint, plan, res).Ok?
    ensures AllPlanned(plan, res.services)
    ensures var rs' := SettleApply(rs, instance, endpoint, plan, res).value;
            forall i :: 0 <= i < |res.services| ==>
              Carries(rs', instance, endpoint, res.services[i]) && Sole(rs', instance, endpoint, res.services[i])
  {
    hide ExactlyMoved, InPlace, Carries, Sole, DistinctPlan, RunsPinned;
    SettleApplyMoves(rs, instance, endpoint, plan, res);
    var rs' := SettleApply(rs, instance, endpoint, plan, res).value;
    forall i | 0 <= i < |res.services|
      ensures Carries(rs', instance, endpoint, res.services[i]) && Sole(rs', instance, endpoint, res.services[i])
    {
      SettledCarries(rs, rs', instance, endpoint, plan, res.services, i);
      RebindSole(rs, instance, endpoint, plan, res.services, i);
    }
  }

  /** With the planned containers in place, a result is taken again if and only if no service moved, and changes nothing. */
  lemma PlacedRepeats(rs: Resources, instance: Id, endpoint: Id, plan: Plan, res: Result)
    requires plan.namespace == "" && DistinctPlan(plan) && InPlace(rs, endpoint, plan, res.services)
    requires SettleApply(rs, instance, endpoint, plan, res).Ok?
    ensures var rs' := SettleApply(rs, instance, endpoint, plan, res).value;
            && (SettleApply(rs', instance, endpoint, plan, res).Ok? <==> Unmoved(plan, res.services))
            && (SettleApply(rs', instance, endpoint, plan, res).Ok? ==> SettleApply(rs', instance, endpoint, plan, res).value == rs')
  {
    ReportsStand(rs, instance, endpoint, plan, res);
    var rs', ids := SettleApply(rs, instance, endpoint, plan, res).value, res.services;
    hide Carries, Sole, InPlace, DistinctPlan, ApplyFits, Rebind;
    if Unmoved(plan, ids) {
      RebindIdle(rs', instance, endpoint, plan, ids);
    } else {
      var k := FirstMoved(plan, ids);
      RebindIdle(rs', instance, endpoint, plan, ids[..k]);
      MovedIsRefused(rs', instance, endpoint, plan, ids, k);
    }
  }

  // ----- Whatever is in place -----

  /** The reported containers are the planned ones of the reported services, in whatever order. */
  predicate Permutes(plan: Plan, endpoint: Id, ids: seq<Identity>) {
    AllPlanned(plan, ids) && News(endpoint, ids) == Olds(plan, endpoint, ids)
  }

  /** The containers after the first `t` services of an accepted rebinding. */
  function After(rs: Resources, instance: Id, endpoint: Id, plan: Plan, ids: seq<Identity>, t: nat): (mid: Resources)
    requires AllPlanned(plan, ids) && t <= |ids| && Rebind(rs, instance, endpoint, plan, ids).Ok?
  {
    PrefixOk(rs, instance, endpoint, plan, ids, t);
    Rebind(rs, instance, endpoint, plan, ids[..t]).value
  }

  lemma PrefixOk(rs: Resources, instance: Id, endpoint: Id, plan: Plan, ids: seq<Identity>, t: nat)
    requires AllPlanned(plan, ids) && t <= |ids| && Rebind(rs, instance, endpoint, plan, ids).Ok?
    ensures Rebind(rs, instance, endpoint, plan, ids[..t]).Ok?
  {
    if Rebind(rs, instance, endpoint, plan, ids[..t]).Err? {
      RebindErr(rs, instance, endpoint, plan, ids, t);
    }
  }

  lemma Ends(rs: Resources, instance: Id, endpoint: Id, plan: Plan, ids: seq<Identity>)
    requires AllPlanned(plan, ids) && Rebind(rs, instance, endpoint, plan, ids).Ok?
    ensures After(rs, instance, endpoint, plan, ids, 0) == rs
    ensures After(rs, instance, endpoint, plan, ids, |ids|) == Rebind(rs, instance, endpoint, plan, ids).value
  {
    assert ids[..0] == [] && ids[..|ids|] == ids;
  }

  /** One service of an accepted rebinding. */
  lemma OneOf(rs: Resources, instance: Id, endpoint: Id, plan: Plan, ids: seq<Identity>, t: nat)
    requires AllPlanned(plan, ids) && t < |ids| && Rebind(rs, instance, endpoint, plan, ids).Ok?
    ensures var a, b := After(rs, instance, endpoint, plan, ids, t), After(rs, instance, endpoint, plan, ids, t + 1);
            var from, to := OldKey(plan, endpoint, ids[t]), NewKey(endpoint, ids[t]);
            && RebindOne(a, instance, from, ids[t]) == Ok(b)
            && from in a && to !in a - {from} && b.Keys == a.Keys - {from} + {to}
  {
    assert ids[..t + 1][..t] == ids[..t];
    PrefixOk(rs, instance, endpoint, plan, ids, t + 1);
    hide ServiceTaken;
  }

  /** A key no service leaves or takes in a stretch is there at its end exactly if it was at its start. */
  lemma {:induction false} Undisturbed(rs: Resources, instance: Id, endpoint: Id, plan: Plan, ids: seq<Identity>, m: nat, n: nat, k: Key)
    requires AllPlanned(plan, ids) && m <= n <= |ids| && Rebind(rs, instance, endpoint, plan, ids).Ok?
    requires forall t :: m <= t < n ==> OldKey(plan, endpoint, ids[t]) != k && NewKey(endpoint, ids[t]) != k
    ensures k in After(rs, instance, endpoint, plan, ids, m) <==> k in After(rs, instance, endpoint, plan, ids, n)
  {
    hide After, Rebind, RebindOne;
    if m < n {
      Undisturbed(rs, instance, endpoint, plan, ids, m, n - 1, k);
      OneOf(rs, instance, endpoint, plan, ids, n - 1);
    }
  }

  /** A key that is gone and that no service takes stays gone. */
  lemma {:induction false} StaysGone(rs: Resources, instance: Id, endpoint: Id, plan: Plan, ids: seq<Identity>, m: nat, n: nat, k: Key)
    requires AllPlanned(plan, ids) && m <= n <= |ids| && Rebind(rs, instance, endpoint, plan, ids).Ok?
    requires k !in News(endpoint, ids) && k !in After(rs, instance, endpoint, plan, ids, m)
    ensures k !in After(rs, instance, endpoint, plan, ids, n)
  {
    hide After, Rebind, RebindOne, News;
    if m < n {
      StaysGone(rs, instance, endpoint, plan, ids, m, n - 1, k);
      OneOf(rs, instance, endpoint, plan, ids, n - 1);
      NewsWithin(endpoint, ids, n - 1);
    }
  }

  // ----- Counting the containers named -----

  lemma {:induction false} NewsAre(endpoint: Id, ids: seq<Identity>, k: Key)
    ensures k in News(endpoint, ids) <==> exists j :: 0 <= j < |ids| && NewKey(endpoint, ids[j]) == k
  {
    if ids != [] {
      var front := ids[..|ids| - 1];
      NewsAre(endpoint, front, k);
      assert forall j :: 0 <= j < |front| ==> front[j] == ids[j];
    }
  }

  lemma {:induction false} NewsCount(endpoint: Id, ids: seq<Identity>)
    ensures |News(endpoint, ids)| <= |ids|
  {
    if ids != [] {
      NewsCount(endpoint, ids[..|ids| - 1]);
    }
  }

  lemma {:induction false} NewsDistinct(endpoint: Id, ids: seq<Identity>, i: nat, j: nat)
    requires |News(endpoint, ids)| == |ids| && i < j < |ids|
    ensures NewKey(endpoint, ids[i]) != NewKey(endpoint, ids[j])
  {
    var n := |ids| - 1;
    var front := ids[..n];
    NewsCount(endpoint, front);
    if j < n {
      NewsDistinct(endpoint, front, i, j);
    } else {
      NewsWithin(endpoint, front, i);
    }
  }

  lemma {:induction false} OldsCount(plan: Plan, endpoint: Id, ids: seq<Identity>)
    requires AllPlanned(plan, ids) && DistinctServices(ids) && DistinctPlan(plan)
    ensures |Olds(plan, endpoint, ids)| == |ids|
  {
    hide DistinctPlan;
    if ids != [] {
      var n := |ids| - 1;
      var front, last := ids[..n], ids[n];
      OldsCount(plan, endpoint, front);
      OldsWithin(plan, endpoint, front, OldKey(plan, endpoint, last));
      forall i | 0 <= i < n ensures OldKey(plan, endpoint, front[i]) != OldKey(plan, endpoint, last) {
        DistinctOldKeys(plan, endpoint, front[i], last);
      }
    }
  }

  // ----- A permutation returns every key -----

  lemma KeyReturns(rs: Resources, instance: Id, endpoint: Id, plan: Plan, ids: seq<Identity>, i: nat, j: nat, k: Key)
    requires AllPlanned(plan, ids) && Rebind(rs, instance, endpoint, plan, ids).Ok? && i < |ids| && j < |ids|
    requires OldKey(plan, endpoint, ids[i]) == k == NewKey(endpoint, ids[j])
    requires forall t :: 0 <= t < |ids| && t != i ==> OldKey(plan, endpoint, ids[t]) != k
    requires forall t :: 0 <= t < |ids| && t != j ==> NewKey(endpoint, ids[t]) != k
    ensures k in rs <==> k in Rebind(rs, instance, endpoint, plan, ids).value
  {
    hide After, RebindOne, Rebind, OldKey;
    Ends(rs, instance, endpoint, plan, ids);
    OneOf(rs, instance, endpoint, plan, ids, i);
    OneOf(rs, instance, endpoint, plan, ids, j);
    var first, second := if i < j then i else j, if i < j then j else i;
    Undisturbed(rs, instance, endpoint, plan, ids, 0, first, k);
    if first < second {
      Undisturbed(rs, instance, endpoint, plan, ids, first + 1, second, k);
    }
    Undisturbed(rs, instance, endpoint, plan, ids, second + 1, |ids|, k);
  }

  lemma KeysReturn(rs: Resources, instance: Id, endpoint: Id, plan: Plan, ids: seq<Identity>)
    requires AllPlanned(plan, ids) && DistinctServices(ids) && DistinctPlan(plan) && Permutes(plan, endpoint, ids)
    requires Rebind(rs, instance, endpoint, plan, ids).Ok?
    ensures Rebind(rs, instance, endpoint, plan, ids).value.Keys == rs.Keys
  {
    hide Rebind, RebindOne, News, Olds, DistinctPlan, OldKey;
    forall k ensures k in rs <==> k in Rebind(rs, instance, endpoint, plan, ids).value {
      OldsWithin(plan, endpoint, ids, k);
      NewsAre(endpoint, ids, k);
      if k in Olds(plan, endpoint, ids) {
        OldsCount(plan, endpoint, ids);
        var i :| 0 <= i < |ids| && OldKey(plan, endpoint, ids[i]) == k;
        var j :| 0 <= j < |ids| && NewKey(endpoint, ids[j]) == k;
        OnlyOnes(plan, endpoint, ids, i, j, k);
        KeyReturns(rs, instance, endpoint, plan, ids, i, j, k);
      } else {
        Ends(rs, instance, endpoint, plan, ids);
        Undisturbed(rs, instance, endpoint, plan, ids, 0, |ids|, k);
      }
    }
  }

  lemma OnlyOnes(plan: Plan, endpoint: Id, ids: seq<Identity>, i: nat, j: nat, k: Key)
    requires AllPlanned(plan, ids) && DistinctServices(ids) && DistinctPlan(plan) && |News(endpoint, ids)| == |ids|
    requires i < |ids| && j < |ids| && OldKey(plan, endpoint, ids[i]) == k == NewKey(endpoint, ids[j])
    ensures forall t :: 0 <= t < |ids| && t != i ==> OldKey(plan, endpoint, ids[t]) != k
    ensures forall t :: 0 <= t < |ids| && t != j ==> NewKey(endpoint, ids[t]) != k
  {
    hide DistinctPlan, News;
    forall t | 0 <= t < |ids| && t != i ensures OldKey(plan, endpoint, ids[t]) != k {
      DistinctOldKeys(plan, endpoint, ids[t], ids[i]);
    }
    forall t | 0 <= t < |ids| && t != j ensures NewKey(endpoint, ids[t]) != k {
      NewsDistinct(endpoint, ids, if t < j then t else j, if t < j then j else t);
    }
  }

  // ----- The same keys carry the same result again -----

  ghost predicate SameOwners(a: Resources, b: Resources, instance: Id) {
    a.Keys == b.Keys && forall k :: k in a ==> (a[k].instance == instance <==> b[k].instance == instance)
  }

  lemma OneAgrees(a: Resources, b: Resources, instance: Id, endpoint: Id, from: Key, idn: Identity)
    requires RebindOne(a, instance, from, idn).Ok? && from.endpoint == endpoint
    requires SameOwners(a, b, instance) && Sole(b, instance, endpoint, idn)
    ensures RebindOne(b, instance, from, idn).Ok?
    ensures SameOwners(RebindOne(a, instance, from, idn).value, RebindOne(b, instance, from, idn).value, instance)
  {
    assert !ServiceTaken(b - {from}, instance, idn.service);
    hide ServiceTaken, Sole;
  }

  lemma {:induction false} PassAgrees(rs: Resources, rs': Resources, instance: Id, endpoint: Id, plan: Plan, ids: seq<Identity>, n: nat)
    requires AllPlanned(plan, ids) && DistinctServices(ids) && n <= |ids| && Rebind(rs, instance, endpoint, plan, ids).Ok?
    requires SameOwners(rs, rs', instance) && forall j :: 0 <= j < |ids| ==> Sole(rs', instance, endpoint, ids[j])
    ensures Rebind(rs', instance, endpoint, plan, ids[..n]).Ok?
    ensures var mid' := Rebind(rs', instance, endpoint, plan, ids[..n]).value;
            && SameOwners(After(rs, instance, endpoint, plan, ids, n), mid', instance)
            && forall j :: n <= j < |ids| ==> Sole(mid', instance, endpoint, ids[j])
  {
    hide RebindOne, SameOwners, Sole;
    if n == 0 {
      Ends(rs, instance, endpoint, plan, ids);
      assert ids[..0] == [];
    } else {
      PassAgrees(rs, rs', instance, endpoint, plan, ids, n - 1);
      assert ids[..n][..n - 1] == ids[..n - 1];
      var mid := After(rs, instance, endpoint, plan, ids, n - 1);
      var mid' := Rebind(rs', instance, endpoint, plan, ids[..n - 1]).value;
      OneOf(rs, instance, endpoint, plan, ids, n - 1);
      var from := OldKey(plan, endpoint, ids[n - 1]);
      hide After;
      OneAgrees(mid, mid', instance, endpoint, from, ids[n - 1]);
      forall j | n <= j < |ids| ensures Sole(RebindOne(mid', instance, from, ids[n - 1]).value, instance, endpoint, ids[j]) {
        OneStaysSole(mid', instance, endpoint, from, ids[n - 1], ids[j]);
      }
    }
  }

  /** A rebinding that permutes its containers can be made again, and leaves the same containers. */
  lemma PermutationRepeats(rs: Resources, instance: Id, endpoint: Id, plan: Plan, ids: seq<Identity>)
    requires AllPlanned(plan, ids) && DistinctServices(ids) && DistinctPlan(plan) && Permutes(plan, endpoint, ids)
    requires Rebind(rs, instance, endpoint, plan, ids).Ok?
    ensures var rs' := Rebind(rs, instance, endpoint, plan, ids).value;
            Rebind(rs', instance, endpoint, plan, ids).Ok? && Rebind(rs', instance, endpoint, plan, ids).value.Keys == rs'.Keys
  {
    hide Rebind, Permutes, DistinctPlan, Sole;
    var rs' := Rebind(rs, instance, endpoint, plan, ids).value;
    KeysReturn(rs, instance, endpoint, plan, ids);
    RebindConserves(rs, instance, endpoint, plan, ids);
    assert SameOwners(rs, rs', instance);
    forall j | 0 <= j < |ids| ensures Sole(rs', instance, endpoint, ids[j]) {
      RebindSole(rs, instance, endpoint, plan, ids, j);
    }
    PassAgrees(rs, rs', instance, endpoint, plan, ids, |ids|);
    Ends(rs, instance, endpoint, plan, ids);
    assert ids[..|ids|] == ids;
  }

  /** Each planned container is left once, so it must be reported for the result to be taken again. */
  lemma RepeatPermutes(rs: Resources, instance: Id, endpoint: Id, plan: Plan, ids: seq<Identity>)
    requires AllPlanned(plan, ids) && DistinctServices(ids) && DistinctPlan(plan)
    requires Rebind(rs, instance, endpoint, plan, ids).Ok?
    requires Rebind(Rebind(rs, instance, endpoint, plan, ids).value, instance, endpoint, plan, ids).Ok?
    ensures Permutes(plan, endpoint, ids)
  {
    hide Rebind, RebindOne, After, News, Olds, DistinctPlan, OldKey;
    forall k | k in Olds(plan, endpoint, ids) ensures k in News(endpoint, ids) {
      OldsWithin(plan, endpoint, ids, k);
      var i :| 0 <= i < |ids| && OldKey(plan, endpoint, ids[i]) == k;
      OldIsReported(rs, instance, endpoint, plan, ids, i);
    }
    OldsCount(plan, endpoint, ids);
    NewsCount(endpoint, ids);
    SubsetOfSameSize(Olds(plan, endpoint, ids), News(endpoint, ids));
  }

  lemma OldIsReported(rs: Resources, instance: Id, endpoint: Id, plan: Plan, ids: seq<Identity>, i: nat)
    requires AllPlanned(plan, ids) && i < |ids| && Rebind(rs, instance, endpoint, plan, ids).Ok?
    requires Rebind(Rebind(rs, instance, endpoint, plan, ids).value, instance, endpoint, plan, ids).Ok?
    ensures OldKey(plan, endpoint, ids[i]) in News(endpoint, ids)
  {
    hide Rebind, RebindOne, After, News;
    var k := OldKey(plan, endpoint, ids[i]);
    if k !in News(endpoint, ids) {
      var rs' := Rebind(rs, instance, endpoint, plan, ids).value;
      OneOf(rs, instance, endpoint, plan, ids, i);
      NewsWithin(endpoint, ids, i);
      StaysGone(rs, instance, endpoint, plan, ids, i + 1, |ids|, k);
      Ends(rs, instance, endpoint, plan, ids);
      Ends(rs', instance, endpoint, plan, ids);
      StaysGone(rs', instance, endpoint, plan, ids, 0, i, k);
      OneOf(rs', instance, endpoint, plan, ids, i);
    }
  }

  /**
   An accepted Docker apply is accepted again if and only if the containers it reports are those its
   services were planned to replace, in whatever order. A repeat that is accepted keeps the set of
   containers; with the planned ones in place that means no service moved, and it changes nothing.
   */
  lemma ApplyRepeats(rs: Resources, instance: Id, endpoint: Id, plan: Plan, res: Result)
    requires plan.namespace == "" && DistinctPlan(plan) && SettleApply(rs, instance, endpoint, plan, res).Ok?
    ensures var rs' := SettleApply(rs, instance, endpoint, plan, res).value;
            var again := SettleApply(rs', instance, endpoint, plan, res);
            && (again.Ok? <==> Permutes(plan, endpoint, res.services))
            && (again.Ok? ==> again.value.Keys == rs'.Keys && Conserves(rs', again.value, instance))
            && (InPlace(rs, endpoint, plan, res.services) ==>
                  (again.Ok? <==> Unmoved(plan, res.services)) && (again.Ok? ==> again.value == rs'))
  {
    AllReportedPlanned(plan, res);
    var rs', ids := SettleApply(rs, instance, endpoint, plan, res).value, res.services;
    hide Rebind, Permutes, DistinctPlan, InPlace, Unmoved, ApplyFits, Conserves;
    if Permutes(plan, endpoint, ids) {
      PermutationRepeats(rs, instance, endpoint, plan, ids);
    } else if Rebind(rs', instance, endpoint, plan, ids).Ok? {
      RepeatPermutes(rs, instance, endpoint, plan, ids);
    }
    if SettleApply(rs', instance, endpoint, plan, res).Ok? {
      SettleApplyConserves(rs', instance, endpoint, plan, res);
    }
    if InPlace(rs, endpoint, plan, ids) {
      PlacedRepeats(rs, instance, endpoint, plan, res);
    }
  }

  /** An accepted removal that did not succeed is accepted again, and changes nothing. */
  lemma RemovalRepeats(rs: Resources, instance: Id, endpoint: Id, plan: Plan, res: Result)
    requires SettleRemoval(rs, instance, endpoint, plan, res).Ok? && res.outcome != Succeeded
    ensures var rs' := SettleRemoval(rs, instance, endpoint, plan, res).value.resources;
            SettleRemoval(rs', instance, endpoint, plan, res) == Ok(Removal(rs', false))
  {
    hide RemovalFits, GoneContainers, Targets;
    var gone := GoneContainers(Targets(plan.containers), res.steps);
    var rs' := Forget(rs, instance, endpoint, gone);
    assert Forget(rs', instance, endpoint, gone) == rs';
  }
}
