/**
 What an agent's result may do to an instance's adopted containers: the checks of settleApply,
 settleKubernetesApply and settleRemoval, and the rebinding they allow.
 */
module SettleRules {
  import opened Options
  import opened Deployments

  // ----- Applies -----

  /** The planned services by name; a later service of the same name replaces an earlier one. */
  function ByName(services: seq<PlannedService>): (m: map<string, PlannedService>) {
    if services == [] then map[]
    else
      var last := services[|services| - 1];
      ByName(services[..|services| - 1])[last.name := last]
  }

  predicate DistinctServices(ids: seq<Identity>) {
    forall i, j :: 0 <= i < j < |ids| ==> ids[i].service != ids[j].service
  }

  /** The identity runs what the plan pinned: the planned digest of a pull, else the pinned image. */
  predicate RunsPinned(ps: PlannedService, idn: Identity) {
    if ps.pullDigest != "" then idn.imageDigest == ps.pullDigest else idn.imageId == ps.imageId
  }

  predicate ContainerFits(planned: map<string, PlannedService>, idn: Identity) {
    idn.service in planned && idn.kind == "" && RunsPinned(planned[idn.service], idn)
  }

  predicate ObjectFits(planned: map<string, PlannedService>, idn: Identity) {
    && idn.service in planned
    && planned[idn.service].cluster.Some?
    && idn.kind == KIND_DEPLOYMENT
    && idn.namespace == planned[idn.service].cluster.value.namespace
    && idn.name == planned[idn.service].cluster.value.name
    && idn.imageDigest == planned[idn.service].pullDigest
  }

  predicate IdentityFits(plan: Plan, idn: Identity) {
    if plan.namespace != "" then ObjectFits(ByName(plan.services), idn) else ContainerFits(ByName(plan.services), idn)
  }

  /** A result the store accepts for an apply: distinct fitting services, all of them on a success. */
  predicate ApplyFits(plan: Plan, res: Result) {
    && (forall k :: 0 <= k < |res.services| ==> IdentityFits(plan, res.services[k]))
    && DistinctServices(res.services)
    && (res.outcome == Succeeded ==> |res.services| == |plan.services|)
  }

  /** One service moves from its planned container to the one the agent reports. */
  function RebindOne(rs: Resources, instance: Id, from: Key, idn: Identity): (r: Reply<Resources>) {
    if from !in rs || rs[from].instance != instance then Err(AdoptionChanged)
    else
      var rest := rs - {from};
      var to := Key(from.endpoint, idn.containerId);
      if to in rest || ServiceTaken(rest, instance, idn.service) then Err(Conflict)
      else Ok(rest[to := Resource(instance, rs[from].name, idn.imageId, idn.createdUnix, idn.service)])
  }

  /** The unique index over an instance's non-empty service names refuses `service`. */
  predicate ServiceTaken(rs: Resources, instance: Id, service: string) {
    service != "" && exists k :: k in rs && rs[k].instance == instance && rs[k].service == service
  }

  function OldKey(plan: Plan, endpoint: Id, idn: Identity): (k: Key)
    requires idn.service in ByName(plan.services)
  {
    Key(endpoint, ByName(plan.services)[idn.service].containerId)
  }

  predicate AllPlanned(plan: Plan, ids: seq<Identity>) {
    forall k :: 0 <= k < |ids| ==> ids[k].service in ByName(plan.services)
  }

  /** Every reported service in turn; the first refusal refuses the whole result. */
  function Rebind(rs: Resources, instance: Id, endpoint: Id, plan: Plan, ids: seq<Identity>): (r: Reply<Resources>)
    requires AllPlanned(plan, ids)
  {
    if ids == [] then Ok(rs)
    else
      var front := ids[..|ids| - 1];
      var idn := ids[|ids| - 1];
      match Rebind(rs, instance, endpoint, plan, front)
      case Err(e) => Err(e)
      case Ok(mid) => RebindOne(mid, instance, OldKey(plan, endpoint, idn), idn)
  }

  function SettleApply(rs: Resources, instance: Id, endpoint: Id, plan: Plan, res: Result): (r: Reply<Resources>) {
    if !ApplyFits(plan, res) then Err(Invalid)
    else if plan.namespace != "" then Ok(rs)
    else Rebind(rs, instance, endpoint, plan, res.services)
  }

  lemma AllReportedPlanned(plan: Plan, res: Result)
    requires plan.namespace == "" && ApplyFits(plan, res)
    ensures AllPlanned(plan, res.services) && DistinctServices(res.services)
  {
    forall k | 0 <= k < |res.services| ensures res.services[k].service in ByName(plan.services) {
      assert IdentityFits(plan, res.services[k]);
    }
  }

  /** A rebinding is refused because a container is not the instance's, or because two would be one. */
  lemma {:induction false} RebindRefusals(rs: Resources, instance: Id, endpoint: Id, plan: Plan, ids: seq<Identity>)
    requires AllPlanned(plan, ids)
    ensures var r := Rebind(rs, instance, endpoint, plan, ids); r.Err? ==> r.error == AdoptionChanged || r.error == Conflict
  {
    if ids != [] {
      RebindRefusals(rs, instance, endpoint, plan, ids[..|ids| - 1]);
    }
  }

  /** A refusal part way refuses the whole result. */
  lemma {:induction false} RebindErr(rs: Resources, instance: Id, endpoint: Id, plan: Plan, ids: seq<Identity>, k: nat)
    requires k <= |ids| && AllPlanned(plan, ids) && Rebind(rs, instance, endpoint, plan, ids[..k]).Err?
    ensures Rebind(rs, instance, endpoint, plan, ids) == Rebind(rs, instance, endpoint, plan, ids[..k])
    decreases |ids|
  {
    if k == |ids| {
      assert ids[..k] == ids;
    } else {
      var front := ids[..|ids| - 1];
      assert front[..k] == ids[..k];
      RebindErr(rs, instance, endpoint, plan, front, k);
    }
  }

  // ----- Conservation of an instance's containers -----

  /** The instance's containers carrying `name`: as a family over all names, its multiset of names. */
  function Named(rs: Resources, instance: Id, name: string): (s: set<Key>) {
    set k | k in rs && rs[k].instance == instance && rs[k].name == name
  }

  function Owned(rs: Resources, instance: Id): (s: set<Key>) {
    set k | k in rs && rs[k].instance == instance
  }

  ghost predicate Untouched(rs: Resources, rs': Resources, instance: Id) {
    forall k :: (k in rs && rs[k].instance != instance) || (k in rs' && rs'[k].instance != instance) ==>
      k in rs && k in rs' && rs[k] == rs'[k]
  }

  ghost predicate Conserves(rs: Resources, rs': Resources, instance: Id) {
    && |Owned(rs', instance)| == |Owned(rs, instance)|
    && (forall name :: |Named(rs', instance, name)| == |Named(rs, instance, name)|)
    && Untouched(rs, rs', instance)
  }

  /** Replacing one key of a set by a new one keeps its size. */
  lemma SwapSize(a: set<Key>, from: Key, to: Key)
    requires from in a && to !in a - {from}
    ensures |a - {from} + {to}| == |a|
  {
  }

  lemma RebindOneConserves(rs: Resources, instance: Id, from: Key, idn: Identity)
    requires RebindOne(rs, instance, from, idn).Ok?
    ensures Conserves(rs, RebindOne(rs, instance, from, idn).value, instance)
  {
    hide ServiceTaken;
    var rs' := RebindOne(rs, instance, from, idn).value;
    var to := Key(from.endpoint, idn.containerId);
    assert Owned(rs', instance) == Owned(rs, instance) - {from} + {to};
    SwapSize(Owned(rs, instance), from, to);
    forall name ensures |Named(rs', instance, name)| == |Named(rs, instance, name)| {
      NamedAfterMove(rs, instance, from, idn, name);
    }
  }

  lemma NamedAfterMove(rs: Resources, instance: Id, from: Key, idn: Identity, name: string)
    requires RebindOne(rs, instance, from, idn).Ok?
    ensures |Named(RebindOne(rs, instance, from, idn).value, instance, name)| == |Named(rs, instance, name)|
  {
    hide ServiceTaken;
    var rs' := RebindOne(rs, instance, from, idn).value;
    var to := Key(from.endpoint, idn.containerId);
    if name == rs[from].name {
      assert Named(rs', instance, name) == Named(rs, instance, name) - {from} + {to};
      SwapSize(Named(rs, instance, name), from, to);
    } else {
      assert Named(rs', instance, name) == Named(rs, instance, name);
    }
  }

  lemma {:induction false} RebindConserves(rs: Resources, instance: Id, endpoint: Id, plan: Plan, ids: seq<Identity>)
    requires AllPlanned(plan, ids)
    requires Rebind(rs, instance, endpoint, plan, ids).Ok?
    ensures Conserves(rs, Rebind(rs, instance, endpoint, plan, ids).value, instance)
  {
    if ids != [] {
      var front := ids[..|ids| - 1];
      RebindConserves(rs, instance, endpoint, plan, front);
      var mid := Rebind(rs, instance, endpoint, plan, front).value;
      RebindOneConserves(mid, instance, OldKey(plan, endpoint, ids[|ids| - 1]), ids[|ids| - 1]);
    }
  }

  /** Settling an apply keeps the instance's container count and names, and every other instance. */
  lemma SettleApplyConserves(rs: Resources, instance: Id, endpoint: Id, plan: Plan, res: Result)
    requires SettleApply(rs, instance, endpoint, plan, res).Ok?
    ensures Conserves(rs, SettleApply(rs, instance, endpoint, plan, res).value, instance)
  {
    if plan.namespace == "" {
      RebindConserves(rs, instance, endpoint, plan, res.services);
    }
  }

  // ----- Exactly the reported services move -----

  /** A plan no frame refuses: its services have distinct names and replace distinct containers. */
  predicate DistinctPlan(plan: Plan) {
    forall i, j :: 0 <= i < j < |plan.services| ==>
      plan.services[i].name != plan.services[j].name && plan.services[i].containerId != plan.services[j].containerId
  }

  /** Every planned container is still adopted by the instance. */
  predicate PlanBound(rs: Resources, instance: Id, endpoint: Id, plan: Plan) {
    forall i :: 0 <= i < |plan.services| ==>
      var k := Key(endpoint, plan.services[i].containerId);
      k in rs && rs[k].instance == instance
  }

  lemma {:induction false} ByNameIsPlanned(services: seq<PlannedService>, name: string)
    requires name in ByName(services)
    ensures exists i :: 0 <= i < |services| && services[i] == ByName(services)[name] && services[i].name == name
  {
    var last := services[|services| - 1];
    if name == last.name {
      assert services[|services| - 1] == ByName(services)[name];
    } else {
      var front := services[..|services| - 1];
      ByNameIsPlanned(front, name);
      var i :| 0 <= i < |front| && front[i] == ByName(front)[name] && front[i].name == name;
      assert services[i] == ByName(services)[name];
    }
  }

  lemma DistinctOldKeys(plan: Plan, endpoint: Id, a: Identity, b: Identity)
    requires DistinctPlan(plan)
    requires a.service in ByName(plan.services) && b.service in ByName(plan.services)
    requires a.service != b.service
    ensures OldKey(plan, endpoint, a) != OldKey(plan, endpoint, b)
  {
    ByNameIsPlanned(plan.services, a.service);
    ByNameIsPlanned(plan.services, b.service);
  }

  /** Every reported service is planned, and the container it was planned to replace is there. */
  predicate InPlace(rs: Resources, endpoint: Id, plan: Plan, ids: seq<Identity>) {
    forall m :: 0 <= m < |ids| ==> ids[m].service in ByName(plan.services) && OldKey(plan, endpoint, ids[m]) in rs
  }

  /** A plan whose containers are all adopted has those of any services in place. */
  lemma PlanBoundInPlace(rs: Resources, instance: Id, endpoint: Id, plan: Plan, ids: seq<Identity>)
    requires PlanBound(rs, instance, endpoint, plan) && AllPlanned(plan, ids)
    ensures InPlace(rs, endpoint, plan, ids)
  {
    forall m | 0 <= m < |ids| ensures OldKey(plan, endpoint, ids[m]) in rs {
      ByNameIsPlanned(plan.services, ids[m].service);
    }
  }

  function NewKey(endpoint: Id, idn: Identity): (k: Key) {
    Key(endpoint, idn.containerId)
  }

  /** The old container gave its name to the new one, which carries the reported identity. */
  predicate Moved(rs: Resources, rs': Resources, instance: Id, endpoint: Id, plan: Plan, idn: Identity)
    requires idn.service in ByName(plan.services)
  {
    var from, to := OldKey(plan, endpoint, idn), NewKey(endpoint, idn);
    from in rs && to in rs' &&
    rs'[to] == Resource(instance, rs[from].name, idn.imageId, idn.createdUnix, idn.service)
  }

  /** The containers the services of `ids` leave, and those they move to. */
  function Olds(plan: Plan, endpoint: Id, ids: seq<Identity>): (s: set<Key>)
    requires AllPlanned(plan, ids)
  {
    if ids == [] then {} else Olds(plan, endpoint, ids[..|ids| - 1]) + {OldKey(plan, endpoint, ids[|ids| - 1])}
  }

  function News(endpoint: Id, ids: seq<Identity>): (s: set<Key>) {
    if ids == [] then {} else News(endpoint, ids[..|ids| - 1]) + {NewKey(endpoint, ids[|ids| - 1])}
  }

  lemma {:induction false} OldsWithin(plan: Plan, endpoint: Id, ids: seq<Identity>, k: Key)
    requires AllPlanned(plan, ids)
    ensures k in Olds(plan, endpoint, ids) <==> exists i :: 0 <= i < |ids| && OldKey(plan, endpoint, ids[i]) == k
  {
    if ids != [] {
      var front := ids[..|ids| - 1];
      OldsWithin(plan, endpoint, front, k);
      assert forall i :: 0 <= i < |front| ==> front[i] == ids[i];
    }
  }

  lemma {:induction false} NewsWithin(endpoint: Id, ids: seq<Identity>, i: nat)
    requires i < |ids|
    ensures NewKey(endpoint, ids[i]) in News(endpoint, ids)
  {
    if i < |ids| - 1 {
      NewsWithin(endpoint, ids[..|ids| - 1], i);
    }
  }

  /** `rs'` is `rs` with exactly the services of `ids` moved, each to a container of its own. */
  ghost predicate ExactlyMoved(rs: Resources, rs': Resources, instance: Id, endpoint: Id, plan: Plan, ids: seq<Identity>)
    requires AllPlanned(plan, ids)
  {
    && (forall i :: 0 <= i < |ids| ==> Moved(rs, rs', instance, endpoint, plan, ids[i]))
    && |News(endpoint, ids)| == |ids|
    && rs'.Keys == rs.Keys - Olds(plan, endpoint, ids) + News(endpoint, ids)
    && (forall k :: k in rs' && k !in News(endpoint, ids) ==> rs'[k] == rs[k])
  }

  /** The containers of the services still to move are adopted, and nothing has moved onto them. */
  ghost predicate RestInPlace(rs: Resources, plan: Plan, endpoint: Id, ids: seq<Identity>, n: nat)
    requires n <= |ids| && AllPlanned(plan, ids)
  {
    forall m :: n <= m < |ids| ==>
      OldKey(plan, endpoint, ids[m]) in rs.Keys - Olds(plan, endpoint, ids[..n]) - News(endpoint, ids[..n])
  }

  /** The first `n` services have moved and the containers of the others are where they were. */
  lemma {:induction false} RebindPrefix(
      rs: Resources, instance: Id, endpoint: Id, plan: Plan, ids: seq<Identity>, n: nat)
    requires n <= |ids| && AllPlanned(plan, ids) && DistinctServices(ids)
    requires DistinctPlan(plan) && InPlace(rs, endpoint, plan, ids)
    requires Rebind(rs, instance, endpoint, plan, ids[..n]).Ok?
    ensures ExactlyMoved(rs, Rebind(rs, instance, endpoint, plan, ids[..n]).value, instance, endpoint, plan, ids[..n])
    ensures RestInPlace(rs, plan, endpoint, ids, n)
  {
    if n > 0 {
      assert ids[..n][..|ids[..n]| - 1] == ids[..n - 1];
      hide InPlace, ExactlyMoved, RestInPlace, DistinctPlan, DistinctServices;
      RebindPrefix(rs, instance, endpoint, plan, ids, n - 1);
      var mid := Rebind(rs, instance, endpoint, plan, ids[..n - 1]).value;
      assert mid.Keys == rs.Keys - Olds(plan, endpoint, ids[..n - 1]) + News(endpoint, ids[..n - 1]) by {
        KeysMoved(rs, mid, instance, endpoint, plan, ids[..n - 1]);
      }
      RebindStep(rs, mid, instance, endpoint, plan, ids, n);
      RestStaysInPlace(rs, mid, instance, endpoint, plan, ids, n);
    }
  }

  lemma KeysMoved(rs: Resources, rs': Resources, instance: Id, endpoint: Id, plan: Plan, ids: seq<Identity>)
    requires AllPlanned(plan, ids) && ExactlyMoved(rs, rs', instance, endpoint, plan, ids)
    ensures rs'.Keys == rs.Keys - Olds(plan, endpoint, ids) + News(endpoint, ids)
  {
  }

  lemma RestStaysInPlace(
      rs: Resources, mid: Resources, instance: Id, endpoint: Id, plan: Plan, ids: seq<Identity>, n: nat)
    requires 0 < n <= |ids| && AllPlanned(plan, ids) && DistinctServices(ids) && DistinctPlan(plan)
    requires RestInPlace(rs, plan, endpoint, ids, n - 1)
    requires mid.Keys == rs.Keys - Olds(plan, endpoint, ids[..n - 1]) + News(endpoint, ids[..n - 1])
    requires RebindOne(mid, instance, OldKey(plan, endpoint, ids[n - 1]), ids[n - 1]).Ok?
    ensures RestInPlace(rs, plan, endpoint, ids, n)
  {
    assert ids[..n][..n - 1] == ids[..n - 1];
    forall m | n <= m < |ids|
      ensures OldKey(plan, endpoint, ids[m]) in rs.Keys - Olds(plan, endpoint, ids[..n]) - News(endpoint, ids[..n])
    {
      DistinctOldKeys(plan, endpoint, ids[n - 1], ids[m]);
      assert OldKey(plan, endpoint, ids[m]) in mid.Keys;
    }
  }

  /** One more move extends an exact move. */
  lemma RebindStep(
      rs: Resources, mid: Resources, instance: Id, endpoint: Id, plan: Plan, ids: seq<Identity>, n: nat)
    requires 0 < n <= |ids| && AllPlanned(plan, ids)
    requires ExactlyMoved(rs, mid, instance, endpoint, plan, ids[..n - 1])
    requires RestInPlace(rs, plan, endpoint, ids, n - 1)
    requires RebindOne(mid, instance, OldKey(plan, endpoint, ids[n - 1]), ids[n - 1]).Ok?
    ensures ExactlyMoved(rs, RebindOne(mid, instance, OldKey(plan, endpoint, ids[n - 1]), ids[n - 1]).value,
                         instance, endpoint, plan, ids[..n])
  {
    var front, idn := ids[..n - 1], ids[n - 1];
    var from, to := OldKey(plan, endpoint, idn), NewKey(endpoint, idn);
    assert ids[..n][..n - 1] == front && ids[..n][n - 1] == idn;
    var res := Resource(instance, mid[from].name, idn.imageId, idn.createdUnix, idn.service);
    MoveKey(rs, mid, from, to, res, Olds(plan, endpoint, front), News(endpoint, front));
    var rs' := (mid - {from})[to := res];
    forall i | 0 <= i < n ensures Moved(rs, rs', instance, endpoint, plan, ids[..n][i]) {
      if i < n - 1 {
        NewsWithin(endpoint, front, i);
        assert ids[..n][i] == front[i];
      }
    }
  }

  lemma MoveKey(rs: Resources, mid: Resources, from: Key, to: Key, res: Resource, olds: set<Key>, news: set<Key>)
    requires mid.Keys == rs.Keys - olds + news
    requires forall k :: k in mid && k !in news ==> mid[k] == rs[k]
    requires from in rs.Keys - olds - news && to !in mid - {from}
    ensures to !in news
    ensures mid[from] == rs[from]
    ensures (mid - {from})[to := res].Keys == rs.Keys - (olds + {from}) + (news + {to})
    ensures forall k :: k in (mid - {from})[to := res] && k !in news + {to} ==> (mid - {from})[to := res][k] == rs[k]
    ensures forall k :: k in news ==> (mid - {from})[to := res][k] == mid[k]
  {
  }

  /**
   A Docker result the store accepts moves exactly the reported services, each to a container of its
   own, if and only if the containers they were planned to replace are in place. Either way each
   runs what the plan pinned, and a success reports every planned service.
   */
  lemma SettleApplyMoves(rs: Resources, instance: Id, endpoint: Id, plan: Plan, res: Result)
    requires plan.namespace == "" && DistinctPlan(plan)
    requires SettleApply(rs, instance, endpoint, plan, res).Ok?
    ensures AllPlanned(plan, res.services)
    ensures ExactlyMoved(rs, SettleApply(rs, instance, endpoint, plan, res).value, instance, endpoint, plan, res.services)
            <==> InPlace(rs, endpoint, plan, res.services)
    ensures forall i :: 0 <= i < |res.services| ==>
              var ps := ByName(plan.services)[res.services[i].service];
              if ps.pullDigest != "" then res.services[i].imageDigest == ps.pullDigest else res.services[i].imageId == ps.imageId
    ensures res.outcome == Succeeded ==>
              forall i :: 0 <= i < |plan.services| ==>
                exists j :: 0 <= j < |res.services| && res.services[j].service == plan.services[i].name
  {
    forall k | 0 <= k < |res.services|
      ensures res.services[k].service in ByName(plan.services)
      ensures RunsPinned(ByName(plan.services)[res.services[k].service], res.services[k])
    {
      assert IdentityFits(plan, res.services[k]);
    }
    assert res.services[..|res.services|] == res.services;
    if InPlace(rs, endpoint, plan, res.services) {
      RebindPrefix(rs, instance, endpoint, plan, res.services, |res.services|);
    } else {
      MovedFromPlace(rs, SettleApply(rs, instance, endpoint, plan, res).value, instance, endpoint, plan, res.services);
    }
    if res.outcome == Succeeded {
      EveryServiceReported(plan, res.services);
    }
  }

  lemma MovedFromPlace(rs: Resources, rs': Resources, instance: Id, endpoint: Id, plan: Plan, ids: seq<Identity>)
    requires AllPlanned(plan, ids)
    ensures ExactlyMoved(rs, rs', instance, endpoint, plan, ids) ==> InPlace(rs, endpoint, plan, ids)
  {
    if ExactlyMoved(rs, rs', instance, endpoint, plan, ids) {
      forall m | 0 <= m < |ids| ensures OldKey(plan, endpoint, ids[m]) in rs {
        assert Moved(rs, rs', instance, endpoint, plan, ids[m]);
      }
    }
  }

  function PlannedNames(services: seq<PlannedService>): (s: set<string>) {
    set i | 0 <= i < |services| :: services[i].name
  }

  function ReportedServices(ids: seq<Identity>): (s: set<string>) {
    set i | 0 <= i < |ids| :: ids[i].service
  }

  lemma {:induction false} ReportedCount(ids: seq<Identity>)
    requires DistinctServices(ids)
    ensures |ReportedServices(ids)| == |ids|
  {
    if ids != [] {
      var n := |ids| - 1;
      var front := ids[..n];
      ReportedCount(front);
      assert forall i :: 0 <= i < n ==> front[i].service != ids[n].service;
      assert ids[n].service !in ReportedServices(front);
      assert ReportedServices(ids) == ReportedServices(front) + {ids[n].service};
    }
  }

  lemma {:induction false} NamesCount(services: seq<PlannedService>)
    ensures |PlannedNames(services)| <= |services|
  {
    if services != [] {
      var front := services[..|services| - 1];
      NamesCount(front);
      assert PlannedNames(services) == PlannedNames(front) + {services[|services| - 1].name};
    }
  }

  lemma SubsetOfSameSize<T>(a: set<T>, b: set<T>)
    requires a <= b && |b| <= |a|
    ensures a == b
  {
    assert b == a + (b - a);
    assert |b - a| == 0;
  }

  /** As many distinct planned services reported as planned means every planned service is reported. */
  lemma EveryServiceReported(plan: Plan, ids: seq<Identity>)
    requires AllPlanned(plan, ids) && DistinctServices(ids) && |ids| == |plan.services|
    ensures forall i :: 0 <= i < |plan.services| ==>
              exists j :: 0 <= j < |ids| && ids[j].service == plan.services[i].name
  {
    ReportedCount(ids);
    NamesCount(plan.services);
    forall x | x in ReportedServices(ids) ensures x in PlannedNames(plan.services) {
      ByNameIsPlanned(plan.services, x);
    }
    SubsetOfSameSize(ReportedServices(ids), PlannedNames(plan.services));
    forall i | 0 <= i < |plan.services|
      ensures exists j :: 0 <= j < |ids| && ids[j].service == plan.services[i].name
    {
      assert plan.services[i].name in PlannedNames(plan.services);
    }
  }
}
