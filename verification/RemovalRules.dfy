/**
 What an agent's answer to a removal may do: settleRemoval's checks, the containers whose steps
 prove them off the host, and the release of the instance.
 */
module RemovalRules {
  import opened Options
  import opened Deployments
  import opened SettleRules

  /** The container each target service names; a later target of the same service replaces an earlier one. */
  function Targets(containers: seq<RemovalTarget>): (m: map<string, Id>) {
    if containers == [] then map[]
    else
      var last := containers[|containers| - 1];
      Targets(containers[..|containers| - 1])[last.service := last.containerId]
  }

  predicate TargetStep(targets: map<string, Id>, s: StepReport) {
    s.service in targets && (s.step == Precondition || s.step == Stop || s.step == RemoveStep)
  }

  predicate NoRepeats(steps: seq<StepReport>) {
    forall i, j :: 0 <= i < j < |steps| ==> steps[i].service != steps[j].service || steps[i].step != steps[j].step
  }

  predicate Saw(steps: seq<StepReport>, service: string, step: StepName, outcome: StepOutcome) {
    exists i :: 0 <= i < |steps| && steps[i].service == service && steps[i].step == step && steps[i].outcome == outcome
  }

  /** The steps show the service's container is off the host: removed, or found already gone. */
  predicate ProvenGone(steps: seq<StepReport>, service: string) {
    && Saw(steps, service, Precondition, Ran(Succeeded))
    && (|| Saw(steps, service, RemoveStep, Ran(Succeeded))
        || (Saw(steps, service, Stop, Skipped) && Saw(steps, service, RemoveStep, Skipped)))
  }

  /** A cluster reports preconditions, removals and the claims it kept, and nothing else. */
  predicate ClusterStep(s: StepReport) {
    s.step == Precondition || s.step == RemoveStep || (s.step == Volume && s.outcome == Skipped && s.retained)
  }

  predicate RemovalFits(plan: Plan, res: Result) {
    && res.services == []
    && if plan.namespace != "" then forall i :: 0 <= i < |res.steps| ==> ClusterStep(res.steps[i])
       else
         && (forall i :: 0 <= i < |res.steps| ==> TargetStep(Targets(plan.containers), res.steps[i]))
         && NoRepeats(res.steps)
         && (res.outcome == Succeeded ==> forall s :: s in Targets(plan.containers) ==> ProvenGone(res.steps, s))
  }

  /** The target containers the steps prove gone. */
  function GoneContainers(targets: map<string, Id>, steps: seq<StepReport>): (s: set<Id>) {
    set service | service in targets && ProvenGone(steps, service) :: targets[service]
  }

  /** Delete the instance's rows for `containers` on `endpoint`. */
  function Forget(rs: Resources, instance: Id, endpoint: Id, containers: set<Id>): (rs': Resources)
    ensures rs' == rs - (set k | k in Owned(rs, instance) && k.endpoint == endpoint && k.containerId in containers)
  {
    map k | k in rs && !(rs[k].instance == instance && k.endpoint == endpoint && k.containerId in containers) :: rs[k]
  }

  function ForgetAll(rs: Resources, instance: Id): (rs': Resources)
    ensures rs' == rs - Owned(rs, instance)
  {
    map k | k in rs && rs[k].instance != instance :: rs[k]
  }

  /** `released` says the instance goes and its application is marked removed. */
  datatype Removal = Removal(resources: Resources, released: bool)

  function SettleRemoval(rs: Resources, instance: Id, endpoint: Id, plan: Plan, res: Result): (r: Reply<Removal>) {
    if !RemovalFits(plan, res) then Err(Invalid)
    else if res.outcome == Succeeded then Ok(Removal(ForgetAll(rs, instance), true))
    else if plan.namespace != "" then Ok(Removal(rs, false))
    else Ok(Removal(Forget(rs, instance, endpoint, GoneContainers(Targets(plan.containers), res.steps)), false))
  }

  /** Targets a removal request validates: distinct services and distinct containers. */
  predicate DistinctTargets(containers: seq<RemovalTarget>) {
    forall i, j :: 0 <= i < j < |containers| ==>
      containers[i].service != containers[j].service && containers[i].containerId != containers[j].containerId
  }

  lemma {:induction false} TargetsExact(containers: seq<RemovalTarget>, i: nat)
    requires DistinctTargets(containers) && i < |containers|
    ensures containers[i].service in Targets(containers)
    ensures Targets(containers)[containers[i].service] == containers[i].containerId
  {
    if i < |containers| - 1 {
      TargetsExact(containers[..|containers| - 1], i);
    }
  }

  lemma {:induction false} TargetsOnly(containers: seq<RemovalTarget>, service: string)
    requires service in Targets(containers)
    ensures exists i :: 0 <= i < |containers| && containers[i] == RemovalTarget(service, Targets(containers)[service])
  {
    var last := containers[|containers| - 1];
    if service != last.service {
      var front := containers[..|containers| - 1];
      TargetsOnly(front, service);
      var i :| 0 <= i < |front| && front[i] == RemovalTarget(service, Targets(front)[service]);
      assert containers[i] == front[i];
    } else {
      assert containers[|containers| - 1] == RemovalTarget(service, Targets(containers)[service]);
    }
  }

  /** What the answer says of one step of a service, if anything. */
  function StepOf(steps: seq<StepReport>, service: string, step: StepName): (o: Option<StepOutcome>) {
    if steps == [] then None
    else if steps[0].service == service && steps[0].step == step then Some(steps[0].outcome)
    else StepOf(steps[1..], service, step)
  }

  lemma {:induction false} StepOfSaw(steps: seq<StepReport>, service: string, step: StepName, outcome: StepOutcome)
    requires NoRepeats(steps)
    ensures StepOf(steps, service, step) == Some(outcome) <==> Saw(steps, service, step, outcome)
  {
    if steps != [] {
      var rest := steps[1..];
      StepOfSaw(rest, service, step, outcome);
      if Saw(rest, service, step, outcome) {
        var i :| 0 <= i < |rest| && rest[i].service == service && rest[i].step == step && rest[i].outcome == outcome;
        assert steps[i + 1] == rest[i];
      }
      if Saw(steps, service, step, outcome) {
        var i :| 0 <= i < |steps| && steps[i].service == service && steps[i].step == step && steps[i].outcome == outcome;
        assert i > 0 ==> rest[i - 1] == steps[i];
      }
    }
  }

  /** The answer shows the service's container is off the host. */
  predicate OffHost(steps: seq<StepReport>, service: string) {
    && StepOf(steps, service, Precondition) == Some(Ran(Succeeded))
    && (|| StepOf(steps, service, RemoveStep) == Some(Ran(Succeeded))
        || (StepOf(steps, service, Stop) == Some(Skipped) && StepOf(steps, service, RemoveStep) == Some(Skipped)))
  }

  lemma OffHostIsProven(steps: seq<StepReport>, service: string)
    requires NoRepeats(steps)
    ensures OffHost(steps, service) <==> ProvenGone(steps, service)
  {
    StepOfSaw(steps, service, Precondition, Ran(Succeeded));
    StepOfSaw(steps, service, RemoveStep, Ran(Succeeded));
    StepOfSaw(steps, service, RemoveStep, Skipped);
    StepOfSaw(steps, service, Stop, Skipped);
    hide Saw, StepOf;
  }

  /**
   A Docker removal that is accepted forgets exactly the targets whose steps prove them gone, and
   releases the instance exactly on a success, which then proves every target gone.
   */
  lemma RemovalForgetsExactly(rs: Resources, instance: Id, endpoint: Id, plan: Plan, res: Result)
    requires plan.namespace == "" && DistinctTargets(plan.containers)
    requires SettleRemoval(rs, instance, endpoint, plan, res).Ok?
    ensures var r := SettleRemoval(rs, instance, endpoint, plan, res).value;
            && r.released == (res.outcome == Succeeded)
            && Untouched(rs, r.resources, instance)
            && (r.released ==> Owned(r.resources, instance) == {})
            && (r.released ==> forall i :: 0 <= i < |plan.containers| ==> OffHost(res.steps, plan.containers[i].service))
    ensures var r := SettleRemoval(rs, instance, endpoint, plan, res).value;
            forall i :: 0 <= i < |plan.containers| ==>
              var k := Key(endpoint, plan.containers[i].containerId);
              k in Owned(rs, instance) ==>
                (k !in r.resources <==> OffHost(res.steps, plan.containers[i].service))
    ensures var r := SettleRemoval(rs, instance, endpoint, plan, res).value;
            !r.released ==>
              forall k :: k in rs && k !in r.resources ==>
                exists i :: 0 <= i < |plan.containers| && k == Key(endpoint, plan.containers[i].containerId)
  {
    var targets := Targets(plan.containers);
    var gone := GoneContainers(targets, res.steps);
    forall service ensures OffHost(res.steps, service) <==> ProvenGone(res.steps, service) {
      OffHostIsProven(res.steps, service);
    }
    hide OffHost, ProvenGone;
    forall i | 0 <= i < |plan.containers|
      ensures plan.containers[i].service in targets
      ensures plan.containers[i].containerId in gone <==> ProvenGone(res.steps, plan.containers[i].service)
    {
      TargetsExact(plan.containers, i);
      if plan.containers[i].containerId in gone {
        var service :| service in targets && ProvenGone(res.steps, service) && targets[service] == plan.containers[i].containerId;
        TargetsOnly(plan.containers, service);
      }
    }
    if res.outcome != Succeeded {
      forall k | k in rs && k !in Forget(rs, instance, endpoint, gone)
        ensures exists i :: 0 <= i < |plan.containers| && k == Key(endpoint, plan.containers[i].containerId)
      {
        var service :| service in targets && ProvenGone(res.steps, service) && targets[service] == k.containerId;
        TargetsOnly(plan.containers, service);
      }
    }
  }
}
