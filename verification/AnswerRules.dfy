/**
 Which answers of an agent the store takes, told over the plan, the answer and the adopted
 containers alone: what the checks of settleApply, settleKubernetesApply and settleRemoval amount to.
 */
module AnswerRules {
  import opened Options
  import opened Deployments
  import opened SettleRules
  import opened RemovalRules

  // ----- What a plan says of a service -----

  /** `j` is the last of the planned services called `name`, the one that counts. */
  predicate PlannedAt(services: seq<PlannedService>, j: int, name: string) {
    && 0 <= j < |services| && services[j].name == name
    && forall m :: j < m < |services| ==> services[m].name != name
  }

  ghost predicate IsPlanned(services: seq<PlannedService>, name: string) {
    exists j :: PlannedAt(services, j, name)
  }

  lemma {:induction false} PlannedByName(services: seq<PlannedService>, name: string)
    ensures name in ByName(services) <==> exists j :: PlannedAt(services, j, name)
    ensures forall j :: PlannedAt(services, j, name) ==> name in ByName(services) && ByName(services)[name] == services[j]
  {
    if services != [] {
      var n := |services| - 1;
      var front := services[..n];
      PlannedByName(front, name);
      if services[n].name == name {
        assert PlannedAt(services, n, name);
      } else {
        forall j ensures PlannedAt(services, j, name) <==> PlannedAt(front, j, name) {
          assert forall m :: 0 <= m < n ==> front[m] == services[m];
        }
      }
    }
  }

  predicate DistinctNames(services: seq<PlannedService>) {
    forall i, j :: 0 <= i < j < |services| ==> services[i].name != services[j].name
  }

  /** Every planned service is reported, and no two share a name. */
  ghost predicate AllReported(services: seq<PlannedService>, ids: seq<Identity>) {
    && DistinctNames(services)
    && forall j :: 0 <= j < |services| ==> exists k :: 0 <= k < |ids| && ids[k].service == services[j].name
  }

  lemma {:induction false} NamesDistinct(services: seq<PlannedService>, i: nat, j: nat)
    requires |PlannedNames(services)| == |services| && i < j < |services|
    ensures services[i].name != services[j].name
  {
    var n := |services| - 1;
    var front := services[..n];
    NamesCount(front);
    assert PlannedNames(services) == PlannedNames(front) + {services[n].name};
    if j < n {
      NamesDistinct(front, i, j);
    } else {
      assert front[i].name in PlannedNames(front);
    }
  }

  lemma {:induction false} DistinctNamesCount(services: seq<PlannedService>)
    requires DistinctNames(services)
    ensures |PlannedNames(services)| == |services|
  {
    if services != [] {
      var n := |services| - 1;
      var front := services[..n];
      DistinctNamesCount(front);
      assert forall i :: 0 <= i < n ==> front[i].name != services[n].name;
      assert services[n].name !in PlannedNames(front);
      assert PlannedNames(services) == PlannedNames(front) + {services[n].name};
    }
  }

  /** As many reports as services, each of a planned one and none twice, is a report of every one. */
  lemma CountIsAll(services: seq<PlannedService>, ids: seq<Identity>)
    requires DistinctServices(ids)
    requires forall k :: 0 <= k < |ids| ==> IsPlanned(services, ids[k].service)
    ensures |ids| == |services| <==> AllReported(services, ids)
  {
    ReportedCount(ids);
    NamesCount(services);
    forall k | 0 <= k < |ids| ensures ids[k].service in PlannedNames(services) {
      var j :| PlannedAt(services, j, ids[k].service);
    }
    if |ids| == |services| {
      SubsetOfSameSize(ReportedServices(ids), PlannedNames(services));
      forall i, j | 0 <= i < j < |services| ensures services[i].name != services[j].name {
        NamesDistinct(services, i, j);
      }
      forall j | 0 <= j < |services| ensures exists k :: 0 <= k < |ids| && ids[k].service == services[j].name {
        assert services[j].name in PlannedNames(services);
      }
    }
    if AllReported(services, ids) {
      DistinctNamesCount(services);
      assert PlannedNames(services) == ReportedServices(ids);
    }
  }

  // ----- Applies -----

  /** The answer names distinct services, and a success names all that were planned. */
  ghost predicate Complete(plan: Plan, res: Result) {
    && (forall i, j :: 0 <= i < j < |res.services| ==> res.services[i].service != res.services[j].service)
    && (res.outcome == Succeeded ==> AllReported(plan.services, res.services))
  }

  /**
   An answer to a cluster apply is taken, and rebinds nothing, if and only if each service it names is
   planned with an object and is reported as the Deployment of that namespace and name at the planned
   digest, none twice, and a success names every planned service. Anything else is invalid.
   */
  lemma ClusterAnswer(rs: Resources, instance: Id, endpoint: Id, plan: Plan, res: Result)
    requires plan.namespace != ""
    ensures var r := SettleApply(rs, instance, endpoint, plan, res);
            && (r == Ok(rs) || r == Err(Invalid))
            && (r.Ok? <==>
                  && Complete(plan, res)
                  && forall k :: 0 <= k < |res.services| ==>
                       var idn := res.services[k];
                       exists j ::
                         && PlannedAt(plan.services, j, idn.service)
                         && idn.kind == "Deployment"
                         && plan.services[j].cluster == Some(KubernetesObject(idn.namespace, idn.name))
                         && plan.services[j].pullDigest == idn.imageDigest)
  {
    forall k | 0 <= k < |res.services|
      ensures IdentityFits(plan, res.services[k]) <==>
              exists j :: PlannedAt(plan.services, j, res.services[k].service) && ObjectReported(plan.services[j], res.services[k])
    {
      PlannedByName(plan.services, res.services[k].service);
    }
    if DistinctServices(res.services) && forall k :: 0 <= k < |res.services| ==> IdentityFits(plan, res.services[k]) {
      forall k | 0 <= k < |res.services| ensures IsPlanned(plan.services, res.services[k].service) {
        assert IdentityFits(plan, res.services[k]);
      }
      CountIsAll(plan.services, res.services);
    }
    hide IdentityFits;
  }

  predicate ObjectReported(ps: PlannedService, idn: Identity) {
    && idn.kind == "Deployment" && ps.pullDigest == idn.imageDigest
    && ps.cluster == Some(KubernetesObject(idn.namespace, idn.name))
  }

  /**
   An answer to a Docker apply is valid if and only if each service it names is planned and is reported
   as a container, at the planned digest if one was pulled and else of the planned image, none twice,
   and a success names every planned service.
   */
  lemma DockerAnswer(rs: Resources, instance: Id, endpoint: Id, plan: Plan, res: Result)
    requires plan.namespace == ""
    ensures SettleApply(rs, instance, endpoint, plan, res) != Err(Invalid) <==>
            && Complete(plan, res)
            && forall k :: 0 <= k < |res.services| ==>
                 var idn := res.services[k];
                 exists j ::
                   && PlannedAt(plan.services, j, idn.service)
                   && idn.kind == ""
                   && (plan.services[j].pullDigest != "" ==> idn.imageDigest == plan.services[j].pullDigest)
                   && (plan.services[j].pullDigest == "" ==> idn.imageId == plan.services[j].imageId)
  {
    forall k | 0 <= k < |res.services|
      ensures IdentityFits(plan, res.services[k]) <==>
              exists j :: PlannedAt(plan.services, j, res.services[k].service) && ContainerReported(plan.services[j], res.services[k])
    {
      PlannedByName(plan.services, res.services[k].service);
    }
    if DistinctServices(res.services) && forall k :: 0 <= k < |res.services| ==> IdentityFits(plan, res.services[k]) {
      forall k | 0 <= k < |res.services| ensures IsPlanned(plan.services, res.services[k].service) {
        assert IdentityFits(plan, res.services[k]);
      }
      CountIsAll(plan.services, res.services);
    }
    hide IdentityFits;
    if ApplyFits(plan, res) {
      AllReportedPlanned(plan, res);
      RebindRefusals(rs, instance, endpoint, plan, res.services);
    }
  }

  predicate ContainerReported(ps: PlannedService, idn: Identity) {
    idn.kind == "" && if ps.pullDigest != "" then idn.imageDigest == ps.pullDigest else idn.imageId == ps.imageId
  }

  // ----- The containers of a Docker apply -----

  /** `froms` is the containers the services were planned to replace, one for each report. */
  ghost predicate Replaces(plan: Plan, endpoint: Id, froms: seq<Key>, ids: seq<Identity>) {
    && |froms| == |ids|
    && forall k :: 0 <= k < |ids| ==>
         exists j :: PlannedAt(plan.services, j, ids[k].service) && froms[k] == Key(endpoint, plan.services[j].containerId)
  }

  /** One of the first `n` services was planned to replace `q`. */
  predicate Vacated(froms: seq<Key>, n: nat, q: Key)
    requires n <= |froms|
  {
    exists j :: 0 <= j < n && froms[j] == q
  }

  /**
   The k-th service can take its container: the replaced one is the instance's; of the containers not
   replaced by then, none is the reported one and none of the instance carries the service; and no
   earlier service took it.
   */
  ghost predicate Lands(rs: Resources, instance: Id, endpoint: Id, froms: seq<Key>, ids: seq<Identity>, k: nat)
    requires k < |froms| == |ids|
  {
    && froms[k] in rs && rs[froms[k]].instance == instance
    && (forall q :: q in rs && !Vacated(froms, k + 1, q) ==>
          && q != Key(endpoint, ids[k].containerId)
          && (rs[q].instance == instance && ids[k].service != "" ==> rs[q].service != ids[k].service))
    && (forall j :: 0 <= j < k ==> ids[j].containerId != ids[k].containerId)
  }

  predicate Taken(endpoint: Id, ids: seq<Identity>, n: nat, q: Key)
    requires n <= |ids|
  {
    exists k :: 0 <= k < n && q == Key(endpoint, ids[k].containerId)
  }

  /** The first `n` reported containers are there, each with the name of the one it replaced. */
  ghost predicate Arrived(rs: Resources, rs': Resources, instance: Id, endpoint: Id, froms: seq<Key>, ids: seq<Identity>, n: nat)
    requires n <= |froms| == |ids|
  {
    forall k :: 0 <= k < n ==>
      var to := Key(endpoint, ids[k].containerId);
      && froms[k] in rs && to in rs'
      && rs'[to] == Resource(instance, rs[froms[k]].name, ids[k].imageId, ids[k].createdUnix, ids[k].service)
  }

  /** Of the other containers, those the first `n` services did not replace are there as they were, and no others. */
  ghost predicate Stayed(rs: Resources, rs': Resources, endpoint: Id, froms: seq<Key>, ids: seq<Identity>, n: nat)
    requires n <= |froms| == |ids|
  {
    && (forall q :: q in rs' && !Taken(endpoint, ids, n, q) ==> q in rs && !Vacated(froms, n, q) && rs'[q] == rs[q])
    && (forall q :: q in rs && !Vacated(froms, n, q) ==> q in rs')
  }

  /** Exactly the first `n` services have moved. */
  ghost predicate Shifted(rs: Resources, rs': Resources, instance: Id, endpoint: Id, froms: seq<Key>, ids: seq<Identity>, n: nat)
    requires n <= |froms| == |ids|
  {
    Arrived(rs, rs', instance, endpoint, froms, ids, n) && Stayed(rs, rs', endpoint, froms, ids, n)
  }

  lemma FromIsOld(plan: Plan, endpoint: Id, froms: seq<Key>, ids: seq<Identity>, k: nat)
    requires Replaces(plan, endpoint, froms, ids) && k < |ids|
    ensures ids[k].service in ByName(plan.services) && froms[k] == OldKey(plan, endpoint, ids[k])
  {
    PlannedByName(plan.services, ids[k].service);
  }

  lemma FromsDistinct(plan: Plan, endpoint: Id, froms: seq<Key>, ids: seq<Identity>)
    requires Replaces(plan, endpoint, froms, ids) && DistinctPlan(plan) && DistinctServices(ids)
    ensures AllPlanned(plan, ids)
    ensures forall i, j :: 0 <= i < j < |froms| ==> froms[i] != froms[j]
  {
    hide Replaces, DistinctPlan;
    forall k | 0 <= k < |ids| ensures ids[k].service in ByName(plan.services) {
      FromIsOld(plan, endpoint, froms, ids, k);
    }
    SameLength(plan, endpoint, froms, ids);
    forall i, j | 0 <= i < j < |froms| ensures froms[i] != froms[j] {
      FromIsOld(plan, endpoint, froms, ids, i);
      FromIsOld(plan, endpoint, froms, ids, j);
      DistinctOldKeys(plan, endpoint, ids[i], ids[j]);
    }
  }

  lemma SameLength(plan: Plan, endpoint: Id, froms: seq<Key>, ids: seq<Identity>)
    requires Replaces(plan, endpoint, froms, ids)
    ensures |froms| == |ids|
  {
  }

  /** What the first services did not replace they did not take, so it is as it was. */
  lemma Rests(rs: Resources, mid: Resources, instance: Id, endpoint: Id, froms: seq<Key>, ids: seq<Identity>, n: nat, q: Key)
    requires n <= |froms| == |ids| && q in rs && !Vacated(froms, n, q)
    requires forall k :: 0 <= k < n ==> Lands(rs, instance, endpoint, froms, ids, k)
    requires Shifted(rs, mid, instance, endpoint, froms, ids, n)
    ensures !Taken(endpoint, ids, n, q) && q in mid && mid[q] == rs[q]
  {
    forall k | 0 <= k < n ensures q != Key(endpoint, ids[k].containerId) {
      assert Lands(rs, instance, endpoint, froms, ids, k);
      assert !Vacated(froms, k + 1, q);
    }
  }

  lemma FromRests(rs: Resources, mid: Resources, instance: Id, endpoint: Id, froms: seq<Key>, ids: seq<Identity>, n: nat)
    requires n < |froms| == |ids| && froms[n] in rs
    requires forall i, j :: 0 <= i < j < |froms| ==> froms[i] != froms[j]
    requires forall k :: 0 <= k < n ==> Lands(rs, instance, endpoint, froms, ids, k)
    requires Shifted(rs, mid, instance, endpoint, froms, ids, n)
    ensures froms[n] in mid && mid[froms[n]] == rs[froms[n]] && !Taken(endpoint, ids, n, froms[n])
  {
    hide Lands, Shifted;
    Rests(rs, mid, instance, endpoint, froms, ids, n, froms[n]);
  }

  /** A container still there after a move away is one a service took, or one as it was. */
  lemma StillThere(rs: Resources, mid: Resources, instance: Id, endpoint: Id, froms: seq<Key>, ids: seq<Identity>, n: nat, q: Key)
    requires n < |froms| == |ids| && q in mid && q != froms[n] && Shifted(rs, mid, instance, endpoint, froms, ids, n)
    ensures (exists k :: 0 <= k < n && q == Key(endpoint, ids[k].containerId) && mid[q].service == ids[k].service)
            || (q in rs && !Vacated(froms, n + 1, q) && mid[q] == rs[q])
  {
    if Taken(endpoint, ids, n, q) {
      TakenCarries(rs, mid, instance, endpoint, froms, ids, n, q);
    } else {
      assert !Vacated(froms, n, q);
    }
  }

  lemma TakenCarries(rs: Resources, mid: Resources, instance: Id, endpoint: Id, froms: seq<Key>, ids: seq<Identity>, n: nat, q: Key)
    requires n < |froms| == |ids| && q in mid && Arrived(rs, mid, instance, endpoint, froms, ids, n) && Taken(endpoint, ids, n, q)
    ensures exists k :: 0 <= k < n && q == Key(endpoint, ids[k].containerId) && mid[q].service == ids[k].service
  {
    var k :| 0 <= k < n && q == Key(endpoint, ids[k].containerId);
    assert mid[q].service == ids[k].service;
  }

  /** A move that can land does. */
  lemma LandingMoves(rs: Resources, mid: Resources, instance: Id, endpoint: Id, froms: seq<Key>, ids: seq<Identity>, n: nat)
    requires n < |froms| == |ids| && froms[n].endpoint == endpoint && DistinctServices(ids)
    requires froms[n] in mid && froms[n] in rs && mid[froms[n]] == rs[froms[n]]
    requires Shifted(rs, mid, instance, endpoint, froms, ids, n) && Lands(rs, instance, endpoint, froms, ids, n)
    ensures RebindOne(mid, instance, froms[n], ids[n]).Ok?
  {
    hide Shifted;
    forall q | q in mid && q != froms[n]
      ensures q != Key(endpoint, ids[n].containerId)
      ensures mid[q].instance == instance && ids[n].service != "" ==> mid[q].service != ids[n].service
    {
      StillThere(rs, mid, instance, endpoint, froms, ids, n, q);
    }
    hide Lands;
  }

  /** A container in the way of the n-th service: the reported one, or one that carries the service. */
  predicate Blocks(rs: Resources, instance: Id, endpoint: Id, froms: seq<Key>, ids: seq<Identity>, n: nat, q: Key)
    requires n < |froms| == |ids|
  {
    && q in rs && !Vacated(froms, n + 1, q)
    && (|| q == Key(endpoint, ids[n].containerId)
        || (rs[q].instance == instance && ids[n].service != "" && rs[q].service == ids[n].service))
  }

  lemma WhyNot(rs: Resources, instance: Id, endpoint: Id, froms: seq<Key>, ids: seq<Identity>, n: nat)
    requires n < |froms| == |ids| && froms[n] in rs && rs[froms[n]].instance == instance
    requires !Lands(rs, instance, endpoint, froms, ids, n)
    ensures Taken(endpoint, ids, n, Key(endpoint, ids[n].containerId)) || exists q :: Blocks(rs, instance, endpoint, froms, ids, n, q)
  {
    if !Taken(endpoint, ids, n, Key(endpoint, ids[n].containerId)) {
      assert forall j :: 0 <= j < n ==> Key(endpoint, ids[j].containerId) != Key(endpoint, ids[n].containerId);
      var q :| q in rs && !Vacated(froms, n + 1, q) &&
        (q == Key(endpoint, ids[n].containerId) || (rs[q].instance == instance && ids[n].service != "" && rs[q].service == ids[n].service));
      assert Blocks(rs, instance, endpoint, froms, ids, n, q);
    }
  }

  lemma TakenIsThere(rs: Resources, mid: Resources, instance: Id, endpoint: Id, froms: seq<Key>, ids: seq<Identity>, n: nat, q: Key)
    requires n <= |froms| == |ids| && Shifted(rs, mid, instance, endpoint, froms, ids, n) && Taken(endpoint, ids, n, q)
    ensures q in mid
  {
  }

  /** A move that cannot land is refused. */
  lemma CrashingIsRefused(rs: Resources, mid: Resources, instance: Id, endpoint: Id, froms: seq<Key>, ids: seq<Identity>, n: nat)
    requires n < |froms| == |ids| && froms[n].endpoint == endpoint && froms[n] in rs
    requires froms[n] in mid && mid[froms[n]] == rs[froms[n]] && !Taken(endpoint, ids, n, froms[n])
    requires forall k :: 0 <= k < n ==> Lands(rs, instance, endpoint, froms, ids, k)
    requires Shifted(rs, mid, instance, endpoint, froms, ids, n) && !Lands(rs, instance, endpoint, froms, ids, n)
    ensures RebindOne(mid, instance, froms[n], ids[n]).Err?
  {
    hide Lands, Shifted, Taken;
    var to := Key(endpoint, ids[n].containerId);
    if rs[froms[n]].instance == instance {
      WhyNot(rs, instance, endpoint, froms, ids, n);
      if Taken(endpoint, ids, n, to) {
        TakenIsThere(rs, mid, instance, endpoint, froms, ids, n, to);
        assert to in mid - {froms[n]};
      } else {
        var q :| Blocks(rs, instance, endpoint, froms, ids, n, q);
        assert q != froms[n] && !Vacated(froms, n, q);
        Rests(rs, mid, instance, endpoint, froms, ids, n, q);
        assert q in mid - {froms[n]};
      }
    }
  }

  /** After a move one more service has moved. */
  lemma MoveShifts(rs: Resources, mid: Resources, instance: Id, endpoint: Id, froms: seq<Key>, ids: seq<Identity>, n: nat)
    requires n < |froms| == |ids| && froms[n].endpoint == endpoint && froms[n] in rs
    requires froms[n] in mid && mid[froms[n]] == rs[froms[n]] && !Taken(endpoint, ids, n, froms[n])
    requires Shifted(rs, mid, instance, endpoint, froms, ids, n)
    requires RebindOne(mid, instance, froms[n], ids[n]).Ok?
    ensures Shifted(rs, RebindOne(mid, instance, froms[n], ids[n]).value, instance, endpoint, froms, ids, n + 1)
  {
    hide ServiceTaken;
    var rs', to := RebindOne(mid, instance, froms[n], ids[n]).value, Key(endpoint, ids[n].containerId);
    assert rs' == (mid - {froms[n]})[to := Resource(instance, rs[froms[n]].name, ids[n].imageId, ids[n].createdUnix, ids[n].service)];
    assert to !in mid - {froms[n]};
    hide RebindOne, Taken, Vacated, Arrived, Stayed;
    ArrivalsStay(rs, mid, rs', instance, endpoint, froms, ids, n);
    RestStays(rs, mid, rs', endpoint, froms, ids, n);
  }

  lemma RestStays(rs: Resources, mid: Resources, rs': Resources, endpoint: Id, froms: seq<Key>, ids: seq<Identity>, n: nat)
    requires n < |froms| == |ids| && Stayed(rs, mid, endpoint, froms, ids, n)
    requires rs'.Keys == mid.Keys - {froms[n]} + {Key(endpoint, ids[n].containerId)}
    requires forall q :: q in rs' && q != Key(endpoint, ids[n].containerId) ==> rs'[q] == mid[q]
    ensures Stayed(rs, rs', endpoint, froms, ids, n + 1)
  {
    forall q | q in rs' && !Taken(endpoint, ids, n + 1, q) ensures q in rs && !Vacated(froms, n + 1, q) && rs'[q] == rs[q] {
      assert q != Key(endpoint, ids[n].containerId) && !Taken(endpoint, ids, n, q);
    }
    forall q | q in rs && !Vacated(froms, n + 1, q) ensures q in rs' {
      assert froms[n] != q && !Vacated(froms, n, q);
    }
  }

  lemma ArrivalsStay(
      rs: Resources, mid: Resources, rs': Resources, instance: Id, endpoint: Id, froms: seq<Key>, ids: seq<Identity>, n: nat)
    requires n < |froms| == |ids| && froms[n] in rs && !Taken(endpoint, ids, n, froms[n])
    requires Arrived(rs, mid, instance, endpoint, froms, ids, n)
    requires var to := Key(endpoint, ids[n].containerId);
             && to !in mid - {froms[n]}
             && rs' == (mid - {froms[n]})[to := Resource(instance, rs[froms[n]].name, ids[n].imageId, ids[n].createdUnix, ids[n].service)]
    ensures Arrived(rs, rs', instance, endpoint, froms, ids, n + 1)
  {
    forall k | 0 <= k < n
      ensures var to := Key(endpoint, ids[k].containerId);
              && froms[k] in rs && to in rs'
              && rs'[to] == Resource(instance, rs[froms[k]].name, ids[k].imageId, ids[k].createdUnix, ids[k].service)
    {
      assert Key(endpoint, ids[k].containerId) != froms[n];
    }
  }

  /** One service more: taken if and only if it lands. */
  lemma OneLands(rs: Resources, mid: Resources, instance: Id, endpoint: Id, froms: seq<Key>, ids: seq<Identity>, n: nat)
    requires n < |froms| == |ids| && froms[n] in rs && froms[n].endpoint == endpoint && DistinctServices(ids)
    requires forall i, j :: 0 <= i < j < |froms| ==> froms[i] != froms[j]
    requires forall k :: 0 <= k < n ==> Lands(rs, instance, endpoint, froms, ids, k)
    requires Shifted(rs, mid, instance, endpoint, froms, ids, n)
    ensures var r := RebindOne(mid, instance, froms[n], ids[n]);
            && (r.Ok? <==> Lands(rs, instance, endpoint, froms, ids, n))
            && (r.Ok? ==> Shifted(rs, r.value, instance, endpoint, froms, ids, n + 1))
  {
    hide *;
    FromRests(rs, mid, instance, endpoint, froms, ids, n);
    if Lands(rs, instance, endpoint, froms, ids, n) {
      LandingMoves(rs, mid, instance, endpoint, froms, ids, n);
      MoveShifts(rs, mid, instance, endpoint, froms, ids, n);
    } else {
      CrashingIsRefused(rs, mid, instance, endpoint, froms, ids, n);
    }
  }

  lemma NoneMoved(rs: Resources, instance: Id, endpoint: Id, froms: seq<Key>, ids: seq<Identity>)
    requires |froms| == |ids|
    ensures Shifted(rs, rs, instance, endpoint, froms, ids, 0)
  {
  }

  lemma {:induction false} PrefixLands(
      rs: Resources, instance: Id, endpoint: Id, plan: Plan, froms: seq<Key>, ids: seq<Identity>, n: nat)
    requires Replaces(plan, endpoint, froms, ids) && DistinctPlan(plan) && AllPlanned(plan, ids) && DistinctServices(ids)
    requires n <= |froms| == |ids| && forall k :: 0 <= k < |froms| ==> froms[k] in rs
    ensures var r := Rebind(rs, instance, endpoint, plan, ids[..n]);
            && (r.Ok? <==> forall k :: 0 <= k < n ==> Lands(rs, instance, endpoint, froms, ids, k))
            && (r.Ok? ==> Shifted(rs, r.value, instance, endpoint, froms, ids, n))
  {
    hide Replaces, DistinctPlan, Lands, RebindOne, DistinctServices, Shifted;
    if n == 0 {
      assert ids[..0] == [];
      NoneMoved(rs, instance, endpoint, froms, ids);
    } else {
      var m := n - 1;
      PrefixLands(rs, instance, endpoint, plan, froms, ids, m);
      assert ids[..n][..m] == ids[..m];
      FromIsOld(plan, endpoint, froms, ids, m);
      FromsDistinct(plan, endpoint, froms, ids);
      assert froms[m].endpoint == endpoint;
      var front := Rebind(rs, instance, endpoint, plan, ids[..m]);
      assert Rebind(rs, instance, endpoint, plan, ids[..n]) ==
             if front.Ok? then RebindOne(front.value, instance, froms[m], ids[m]) else front;
      hide Rebind;
      if front.Ok? {
        OneLands(rs, front.value, instance, endpoint, froms, ids, m);
      }
    }
  }

  /**
   A valid answer to a Docker apply whose planned containers are adopted is taken if and only if every
   service can take the container it is reported in; then exactly the reported services have moved.
   */
  lemma DockerAnswerLands(rs: Resources, instance: Id, endpoint: Id, plan: Plan, res: Result, froms: seq<Key>)
    requires plan.namespace == "" && DistinctPlan(plan) && Replaces(plan, endpoint, froms, res.services)
    requires SettleApply(rs, instance, endpoint, plan, res) != Err(Invalid) && forall k :: 0 <= k < |froms| ==> froms[k] in rs
    ensures var r := SettleApply(rs, instance, endpoint, plan, res);
            && (r.Ok? <==> forall k :: 0 <= k < |froms| ==> Lands(rs, instance, endpoint, froms, res.services, k))
            && (r.Ok? ==> Shifted(rs, r.value, instance, endpoint, froms, res.services, |froms|))
  {
    AllReportedPlanned(plan, res);
    assert res.services[..|froms|] == res.services;
    PrefixLands(rs, instance, endpoint, plan, froms, res.services, |froms|);
  }

  // ----- Removals -----

  /** `i` is the last of the targets of its service, the one that counts. */
  predicate TargetAt(containers: seq<RemovalTarget>, i: int) {
    0 <= i < |containers| && forall m :: i < m < |containers| ==> containers[m].service != containers[i].service
  }

  lemma {:induction false} TargetsNamed(containers: seq<RemovalTarget>, service: string)
    ensures service in Targets(containers) <==> exists i :: 0 <= i < |containers| && containers[i].service == service
  {
    if containers != [] {
      var n := |containers| - 1;
      var front := containers[..n];
      TargetsNamed(front, service);
      assert forall m :: 0 <= m < n ==> front[m] == containers[m];
      if service in Targets(front) {
        var i :| 0 <= i < n && front[i].service == service;
        assert containers[i].service == service;
      }
    }
  }

  lemma {:induction false} TargetsAt(containers: seq<RemovalTarget>, service: string)
    ensures service in Targets(containers) ==> exists i :: TargetAt(containers, i) && containers[i].service == service
    ensures forall i :: TargetAt(containers, i) && containers[i].service == service ==>
              service in Targets(containers) && Targets(containers)[service] == containers[i].containerId
  {
    if containers != [] {
      var n := |containers| - 1;
      var front := containers[..n];
      TargetsAt(front, service);
      if containers[n].service == service {
        assert TargetAt(containers, n);
      } else {
        forall i ensures TargetAt(containers, i) && containers[i].service == service <==> TargetAt(front, i) && front[i].service == service {
          SameTarget(containers, service, i);
        }
      }
    }
  }

  lemma SameTarget(containers: seq<RemovalTarget>, service: string, i: int)
    requires containers != [] && containers[|containers| - 1].service != service
    ensures var front := containers[..|containers| - 1];
            TargetAt(containers, i) && containers[i].service == service <==> TargetAt(front, i) && front[i].service == service
  {
    var n := |containers| - 1;
    assert forall m :: 0 <= m < n ==> containers[..n][m] == containers[m];
  }

  /** The steps are each a precondition, a stop or a removal of a target, none of them twice. */
  predicate StepsOfTargets(containers: seq<RemovalTarget>, steps: seq<StepReport>) {
    && (forall k :: 0 <= k < |steps| ==>
          && (steps[k].step == Precondition || steps[k].step == Stop || steps[k].step == RemoveStep)
          && exists i :: 0 <= i < |containers| && containers[i].service == steps[k].service)
    && (forall k, m :: 0 <= k < m < |steps| ==> (steps[k].service, steps[k].step) != (steps[m].service, steps[m].step))
  }

  /**
   An answer to a Docker removal is taken if and only if it names no service, its steps are each a step
   of a target and none is there twice, and a success shows every target off the host.
   */
  lemma DockerRemovalTaken(rs: Resources, instance: Id, endpoint: Id, plan: Plan, res: Result)
    requires plan.namespace == ""
    ensures var r := SettleRemoval(rs, instance, endpoint, plan, res);
            && (r.Ok? || r == Err(Invalid))
            && (r.Ok? <==>
                  && res.services == [] && StepsOfTargets(plan.containers, res.steps)
                  && (res.outcome == Succeeded ==>
                        forall i :: 0 <= i < |plan.containers| ==> OffHost(res.steps, plan.containers[i].service)))
  {
    var targets := Targets(plan.containers);
    forall service ensures service in targets <==> exists i :: 0 <= i < |plan.containers| && plan.containers[i].service == service {
      TargetsNamed(plan.containers, service);
    }
    assert NoRepeats(res.steps) && (forall i :: 0 <= i < |res.steps| ==> TargetStep(targets, res.steps[i]))
           <==> StepsOfTargets(plan.containers, res.steps);
    if NoRepeats(res.steps) {
      forall service ensures OffHost(res.steps, service) <==> ProvenGone(res.steps, service) {
        OffHostIsProven(res.steps, service);
      }
    }
    hide Targets, ProvenGone, OffHost, NoRepeats, StepsOfTargets, TargetStep, Forget, ForgetAll, GoneContainers;
  }

  /** The container is the one that counts of a target the steps show off the host. */
  ghost predicate ShownGone(containers: seq<RemovalTarget>, steps: seq<StepReport>, container: Id) {
    exists i :: TargetAt(containers, i) && containers[i].containerId == container && OffHost(steps, containers[i].service)
  }

  /**
   A Docker removal that is taken forgets, of the containers of the instance, all on a success and else
   exactly those on the endpoint that its steps show off the host; it releases the instance exactly on
   a success, and leaves every other container as it was.
   */
  lemma DockerRemovalForgets(rs: Resources, instance: Id, endpoint: Id, plan: Plan, res: Result)
    requires plan.namespace == "" && SettleRemoval(rs, instance, endpoint, plan, res).Ok?
    ensures var r := SettleRemoval(rs, instance, endpoint, plan, res).value;
            && (r.released <==> res.outcome == Succeeded)
            && (forall k :: k in r.resources <==>
                  && k in rs
                  && (rs[k].instance == instance ==>
                        res.outcome != Succeeded && !(k.endpoint == endpoint && ShownGone(plan.containers, res.steps, k.containerId))))
            && (forall k :: k in r.resources ==> r.resources[k] == rs[k])
  {
    if res.outcome != Succeeded {
      forall c ensures c in GoneContainers(Targets(plan.containers), res.steps) <==> ShownGone(plan.containers, res.steps, c) {
        GoneIsShown(plan.containers, res.steps, c);
      }
    }
    hide RemovalFits, GoneContainers, ShownGone;
  }

  lemma GoneIsShown(containers: seq<RemovalTarget>, steps: seq<StepReport>, c: Id)
    requires NoRepeats(steps)
    ensures c in GoneContainers(Targets(containers), steps) <==> ShownGone(containers, steps, c)
  {
    var targets := Targets(containers);
    hide Targets, ProvenGone, OffHost;
    if c in GoneContainers(targets, steps) {
      var service :| service in targets && ProvenGone(steps, service) && targets[service] == c;
      TargetsAt(containers, service);
      OffHostIsProven(steps, service);
      var i :| TargetAt(containers, i) && containers[i].service == service;
    }
    if ShownGone(containers, steps, c) {
      var i :| TargetAt(containers, i) && containers[i].containerId == c && OffHost(steps, containers[i].service);
      TargetsAt(containers, containers[i].service);
      OffHostIsProven(steps, containers[i].service);
    }
  }

  /**
   An answer to a cluster removal is taken if and only if it names no service and every step is a
   precondition, a removal or a skipped volume marked as retained. A success releases the instance and
   forgets its containers; anything else changes nothing.
   */
  lemma ClusterRemovalAnswer(rs: Resources, instance: Id, endpoint: Id, plan: Plan, res: Result)
    requires plan.namespace != ""
    ensures var r := SettleRemoval(rs, instance, endpoint, plan, res);
            && (r.Ok? || r == Err(Invalid))
            && (r.Ok? <==>
                  && |res.services| == 0
                  && forall k :: 0 <= k < |res.steps| ==>
                       && res.steps[k].step in {Precondition, RemoveStep, Volume}
                       && (res.steps[k].step == Volume ==> res.steps[k].outcome == Skipped && res.steps[k].retained))
            && (r.Ok? ==>
                  && (r.value.released <==> res.outcome == Succeeded)
                  && (forall k :: k in r.value.resources <==> k in rs && (res.outcome == Succeeded ==> rs[k].instance != instance))
                  && (forall k :: k in r.value.resources ==> r.value.resources[k] == rs[k]))
  {
    assert (forall k :: 0 <= k < |res.steps| ==> ClusterStep(res.steps[k])) <==>
           forall k :: 0 <= k < |res.steps| ==>
             && res.steps[k].step in {Precondition, RemoveStep, Volume}
             && (res.steps[k].step == Volume ==> res.steps[k].outcome == Skipped && res.steps[k].retained);
    hide ClusterStep;
  }
}
