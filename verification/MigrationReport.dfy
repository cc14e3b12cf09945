/**
 How an application adopted on a Docker host would run on a cluster: for every service, findings on
 eight axes. The choices are what the operator has acknowledged and chosen so far.
 */
module MigrationReport {
  import opened Text

  datatype Class = Supported | ChoiceRequired | Blocked
  datatype Axis = Storage | Networking | Ports | Secrets | Probes | Resources | Scheduling | Flags

  datatype Finding = Finding(axis: Axis, class_: Class, code: string, detail: string)

  datatype VolumeUse = VolumeUse(kind: string, source: string, target: string)
  datatype Port = Port(published: nat, protocol: string, hostIP: string)
  datatype Service = Service(name: string, restart: string, volumes: seq<VolumeUse>, ports: seq<Port>)
  datatype Inspection = Inspection(networkMode: string, networkCount: int, unsupported: seq<string>, health: string)
  datatype StorageClass = StorageClass(name: string, isDefault: bool)
  datatype VolumeChoice = VolumeChoice(valid: bool, storageClass: string)
  datatype Choices = Choices(acknowledged: set<string>, volumes: map<string, VolumeChoice>)

  /**
   `networks` is the mapped container's; `external` the declared volumes the host manages itself;
   `mounted` the pairs of service and volume whose mount was verified on the running container;
   `names` the services' names at the destination.
   */
  datatype Input = Input(
    services: seq<Service>,
    external: set<string>,
    networks: map<string, seq<string>>,
    inspections: map<string, Inspection>,
    mounted: set<(string, string)>,
    names: map<string, string>,
    classes: seq<StorageClass>,
    choices: Choices)

  datatype ServiceReport = ServiceReport(name: string, class_: Class, findings: seq<Finding>)

  function Severity(c: Class): (n: nat) {
    match c
    case Supported => 0
    case ChoiceRequired => 1
    case Blocked => 2
  }

  // ----- The findings -----

  predicate UsesNamed(s: Service, source: string) {
    exists i :: 0 <= i < |s.volumes| && s.volumes[i].kind == "named" && s.volumes[i].source == source
  }

  /** How many services use a named volume. */
  function Users(services: seq<Service>, source: string): (n: nat) {
    if services == [] then 0
    else Users(services[..|services| - 1], source) + if UsesNamed(services[|services| - 1], source) then 1 else 0
  }

  predicate Chosen(choices: Choices, classes: seq<StorageClass>, volume: string) {
    && volume in choices.volumes && choices.volumes[volume].valid
    && exists i :: 0 <= i < |classes| &&
         (classes[i].name == choices.volumes[volume].storageClass || (choices.volumes[volume].storageClass == "" && classes[i].isDefault))
  }

  function VolumeFinding(inp: Input, s: Service, v: VolumeUse): (f: Finding) {
    if v.kind == "bind" then Finding(Storage, Blocked, "volume_bind", v.target)
    else if Users(inp.services, v.source) > 1 then Finding(Storage, Blocked, "volume_named_shared", v.source)
    else if (s.name, v.source) !in inp.mounted then Finding(Storage, Blocked, "volume_unverified", v.source)
    else
      Finding(Storage, if Chosen(inp.choices, inp.classes, v.source) then Supported else ChoiceRequired,
              if v.source in inp.external then "volume_external" else "volume_named", v.source)
  }

  function VolumeFindings(inp: Input, s: Service, n: nat): (fs: seq<Finding>)
    requires n <= |s.volumes|
    ensures |fs| == n
  {
    if n == 0 then [] else VolumeFindings(inp, s, n - 1) + [VolumeFinding(inp, s, s.volumes[n - 1])]
  }

  function OrElse(fs: seq<Finding>, axis: Axis, code: string): (all: seq<Finding>) {
    if fs == [] then [Finding(axis, Supported, code, "")] else fs
  }

  function Acknowledged(choices: Choices, code: string): (c: Class) {
    if code in choices.acknowledged then Supported else ChoiceRequired
  }

  /** A setting the destination does not carry, recording its acknowledgement when it has no parameter. */
  function Drop(choices: Choices, axis: Axis, code: string, detail: string): (f: Finding) {
    var c := Acknowledged(choices, code);
    Finding(axis, c, code, if c == Supported && detail == "" then "acknowledged" else detail)
  }

  function NetworksOf(inp: Input, s: Service): (networks: seq<string>) {
    if s.name in inp.networks then inp.networks[s.name] else []
  }

  function OwnNetworking(inp: Input, s: Service): (fs: seq<Finding>) {
    var networks := NetworksOf(inp, s);
    if "host" in networks || (s.name in inp.inspections && inp.inspections[s.name].networkMode == "host") then
      [Finding(Networking, Blocked, "network_host", "")]
    else if |networks| > 1 || (s.name in inp.inspections &&
              (inp.inspections[s.name].networkCount > 1 || "network" in inp.inspections[s.name].unsupported)) then
      [Finding(Networking, Supported, "networks_multiple", "")]
    else []
  }

  predicate Several(inp: Input) {
    |inp.services| > 1
  }

  function NetworkFindings(inp: Input, s: Service): (fs: seq<Finding>) {
    var own := OwnNetworking(inp, s);
    if Several(inp) then
      own + [Finding(Networking, Acknowledged(inp.choices, "network_references"), "network_references",
                     if s.name in inp.names then inp.names[s.name] else "")]
    else OrElse(own, Networking, "networking_supported")
  }

  function PortFinding(p: Port): (f: Finding) {
    var detail := Decimal(p.published) + "/" + p.protocol;
    if p.hostIP != "" then Finding(Ports, Blocked, "port_host_ip", detail) else Finding(Ports, Supported, "port_published", detail)
  }

  function PortsUpTo(s: Service, n: nat): (fs: seq<Finding>)
    requires n <= |s.ports|
    ensures |fs| == n
  {
    if n == 0 then [] else PortsUpTo(s, n - 1) + [PortFinding(s.ports[n - 1])]
  }

  function PortFindings(inp: Input, s: Service): (fs: seq<Finding>) {
    if s.ports != [] then PortsUpTo(s, |s.ports|)
    else [Finding(Ports, if Several(inp) then Acknowledged(inp.choices, "port_unpublished") else Supported, "port_unpublished", "")]
  }

  function RestartFindings(s: Service): (fs: seq<Finding>) {
    if s.restart == "no" || s.restart == "on-failure" then [Finding(Flags, Blocked, "restart_policy", s.restart)] else []
  }

  /** Each of the four axes that need an inspection is unknown without one, never read as support. */
  function Uninspected(s: Service): (fs: seq<Finding>) {
    [Finding(Probes, ChoiceRequired, "inspection_unavailable", ""),
     Finding(Resources, ChoiceRequired, "inspection_unavailable", ""),
     Finding(Scheduling, ChoiceRequired, "inspection_unavailable", ""),
     Finding(Flags, ChoiceRequired, "inspection_unavailable", "")] + RestartFindings(s)
  }

  function ProbeFinding(choices: Choices, i: Inspection): (f: Finding) {
    if "image_config" in i.unsupported || (i.health != "" && i.health != "none") then Drop(choices, Probes, "healthcheck_dropped", "")
    else if i.health == "" then Finding(Probes, ChoiceRequired, "inspection_unavailable", "agent")
    else Finding(Probes, Supported, "probes_supported", "")
  }

  const RESOURCE_CODES: set<string> := {"resource_limits", "ulimits"}
  const SCHEDULING_CODES: set<string> := {"pid_mode", "ipc_mode", "cgroup_parent", "userns_mode", "runtime"}

  /** The finding a code the inspection reported becomes, if it is not probes' or networking's. */
  function CodeFindings(choices: Choices, code: string): (fs: seq<Finding>) {
    if code == "image_config" || code == "network" then []
    else if code in RESOURCE_CODES then [Drop(choices, Resources, "resource_limits_dropped", code)]
    else if code in SCHEDULING_CODES then [Finding(Scheduling, Blocked, "scheduling_blocked", code)]
    else if code == "read_only_rootfs" then [Drop(choices, Flags, "read_only_rootfs", "")]
    else [Finding(Flags, Blocked, "flag_blocked", code)]
  }

  /** Those of one axis, in order. */
  function OnAxis(choices: Choices, codes: seq<string>, axis: Axis): (fs: seq<Finding>) {
    if codes == [] then []
    else
      var own := CodeFindings(choices, codes[|codes| - 1]);
      OnAxis(choices, codes[..|codes| - 1], axis) + if own != [] && own[0].axis == axis then own else []
  }

  function Inspected(choices: Choices, s: Service, i: Inspection): (fs: seq<Finding>) {
    [ProbeFinding(choices, i)]
    + OrElse(OnAxis(choices, i.unsupported, Resources), Resources, "resources_supported")
    + OrElse(OnAxis(choices, i.unsupported, Scheduling), Scheduling, "scheduling_supported")
    + OrElse(OnAxis(choices, i.unsupported, Flags) + RestartFindings(s), Flags, "flags_supported")
  }

  function InspectedAxes(inp: Input, s: Service): (fs: seq<Finding>) {
    if s.name in inp.inspections then Inspected(inp.choices, s, inp.inspections[s.name]) else Uninspected(s)
  }

  function StorageFindings(inp: Input, s: Service): (fs: seq<Finding>) {
    OrElse(VolumeFindings(inp, s, |s.volumes|), Storage, "storage_supported")
  }

  function Findings(inp: Input, s: Service): (fs: seq<Finding>) {
    StorageFindings(inp, s) + NetworkFindings(inp, s) + PortFindings(inp, s)
    + [Finding(Secrets, Supported, "secrets_supported", "")] + InspectedAxes(inp, s)
  }

  // ----- The report -----

  /** The most severe class among findings. */
  function Worst(fs: seq<Finding>): (c: Class)
    ensures forall i :: 0 <= i < |fs| ==> Severity(fs[i].class_) <= Severity(c)
    ensures c == Supported || exists i :: 0 <= i < |fs| && fs[i].class_ == c
  {
    if fs == [] then Supported
    else
      var c, last := Worst(fs[..|fs| - 1]), fs[|fs| - 1].class_;
      assert forall i :: 0 <= i < |fs| - 1 ==> fs[i] == fs[..|fs| - 1][i];
      if Severity(last) > Severity(c) then last else c
  }

  function ReportOf(inp: Input, s: Service): (r: ServiceReport) {
    ServiceReport(s.name, Worst(Findings(inp, s)), Findings(inp, s))
  }

  function Reports(inp: Input, n: nat): (rs: seq<ServiceReport>)
    requires n <= |inp.services|
    ensures |rs| == n
  {
    if n == 0 then [] else Reports(inp, n - 1) + [ReportOf(inp, inp.services[n - 1])]
  }

  predicate AllSupported(fs: seq<Finding>) {
    forall i :: 0 <= i < |fs| ==> fs[i].class_ == Supported
  }

  // ----- Every axis is covered -----

  predicate Covers(fs: seq<Finding>, axis: Axis) {
    exists i :: 0 <= i < |fs| && fs[i].axis == axis
  }

  lemma CoversPart(a: seq<Finding>, b: seq<Finding>, axis: Axis)
    requires Covers(a, axis) || Covers(b, axis)
    ensures Covers(a + b, axis)
  {
    if Covers(a, axis) {
      var i :| 0 <= i < |a| && a[i].axis == axis;
      assert (a + b)[i].axis == axis;
    } else {
      var i :| 0 <= i < |b| && b[i].axis == axis;
      assert (a + b)[|a| + i].axis == axis;
    }
  }

  lemma StorageCovered(inp: Input, s: Service)
    ensures Covers(StorageFindings(inp, s), Storage)
  {
    var fs := StorageFindings(inp, s);
    if s.volumes != [] {
      var n := |s.volumes|;
      assert fs[n - 1] == VolumeFinding(inp, s, s.volumes[n - 1]);
    } else {
      assert fs[0].axis == Storage;
    }
  }

  lemma NetworkCovered(inp: Input, s: Service)
    ensures Covers(NetworkFindings(inp, s), Networking)
  {
    var fs := NetworkFindings(inp, s);
    assert fs[|fs| - 1].axis == Networking;
  }

  lemma PortsCovered(inp: Input, s: Service)
    ensures Covers(PortFindings(inp, s), Ports)
  {
    var fs := PortFindings(inp, s);
    assert fs[|fs| - 1].axis == Ports;
  }

  lemma {:induction false} OnAxisOnly(choices: Choices, codes: seq<string>, axis: Axis)
    ensures forall i :: 0 <= i < |OnAxis(choices, codes, axis)| ==> OnAxis(choices, codes, axis)[i].axis == axis
  {
    if codes != [] {
      OnAxisOnly(choices, codes[..|codes| - 1], axis);
    }
  }

  lemma OrElseCovers(fs: seq<Finding>, axis: Axis, code: string)
    requires forall i :: 0 <= i < |fs| ==> fs[i].axis == axis
    ensures Covers(OrElse(fs, axis, code), axis)
  {
    assert OrElse(fs, axis, code)[0].axis == axis;
  }

  lemma InspectedCovered(inp: Input, s: Service, axis: Axis)
    requires axis == Probes || axis == Resources || axis == Scheduling || axis == Flags
    ensures Covers(InspectedAxes(inp, s), axis)
  {
    if s.name in inp.inspections {
      var i := inp.inspections[s.name];
      OnAxisOnly(inp.choices, i.unsupported, Resources);
      OnAxisOnly(inp.choices, i.unsupported, Scheduling);
      OnAxisOnly(inp.choices, i.unsupported, Flags);
      var r := OnAxis(inp.choices, i.unsupported, Resources);
      var sch := OnAxis(inp.choices, i.unsupported, Scheduling);
      var fl := OnAxis(inp.choices, i.unsupported, Flags) + RestartFindings(s);
      OrElseCovers(r, Resources, "resources_supported");
      OrElseCovers(sch, Scheduling, "scheduling_supported");
      OrElseCovers(fl, Flags, "flags_supported");
      var p := [ProbeFinding(inp.choices, i)];
      var r1, s1, f1 := OrElse(r, Resources, "resources_supported"), OrElse(sch, Scheduling, "scheduling_supported"), OrElse(fl, Flags, "flags_supported");
      assert Covers(p, Probes) by { assert p[0].axis == Probes; }
      hide OnAxis, OrElse, ProbeFinding, RestartFindings, Covers;
      Four(p, r1, s1, f1, axis);
    } else {
      var fs := Uninspected(s);
      assert fs[0].axis == Probes && fs[1].axis == Resources && fs[2].axis == Scheduling && fs[3].axis == Flags;
    }
  }

  lemma Four(a: seq<Finding>, b: seq<Finding>, c: seq<Finding>, d: seq<Finding>, axis: Axis)
    requires Covers(a, axis) || Covers(b, axis) || Covers(c, axis) || Covers(d, axis)
    ensures Covers(a + b + c + d, axis)
  {
    hide Covers;
    if Covers(a, axis) || Covers(b, axis) {
      CoversPart(a, b, axis);
    }
    if Covers(a + b, axis) || Covers(c, axis) {
      CoversPart(a + b, c, axis);
    }
    CoversPart(a + b + c, d, axis);
  }

  /** Every service has a finding on each of the eight axes. */
  lemma EveryAxisCovered(inp: Input, s: Service, axis: Axis)
    ensures Covers(Findings(inp, s), axis)
  {
    var sec := [Finding(Secrets, Supported, "secrets_supported", "")];
    StorageCovered(inp, s);
    NetworkCovered(inp, s);
    PortsCovered(inp, s);
    assert Covers(sec, Secrets) by { assert sec[0].axis == Secrets; }
    hide Covers, StorageFindings, NetworkFindings, PortFindings, InspectedAxes;
    var front := StorageFindings(inp, s) + NetworkFindings(inp, s) + PortFindings(inp, s) + sec;
    if axis == Storage || axis == Networking || axis == Ports || axis == Secrets {
      Four(StorageFindings(inp, s), NetworkFindings(inp, s), PortFindings(inp, s), sec, axis);
    } else {
      InspectedCovered(inp, s, axis);
    }
    CoversPart(front, InspectedAxes(inp, s), axis);
  }

  // ----- Readiness -----

  lemma WorstSupported(fs: seq<Finding>)
    ensures Worst(fs) == Supported <==> AllSupported(fs)
  {
    if Worst(fs) == Supported {
      forall i | 0 <= i < |fs| ensures fs[i].class_ == Supported {
        assert Severity(fs[i].class_) <= 0;
      }
    }
  }

  predicate Ready(inp: Input) {
    forall i :: 0 <= i < |inp.services| ==> Worst(Findings(inp, inp.services[i])) == Supported
  }

  /** A report is ready exactly when every finding of every service is supported. */
  lemma ReadyExactly(inp: Input)
    ensures Ready(inp) <==> forall i :: 0 <= i < |inp.services| ==> AllSupported(Findings(inp, inp.services[i]))
  {
    hide Findings, Worst, AllSupported;
    forall i | 0 <= i < |inp.services| ensures Worst(Findings(inp, inp.services[i])) == Supported <==> AllSupported(Findings(inp, inp.services[i])) {
      WorstSupported(Findings(inp, inp.services[i]));
    }
  }

  // ----- Readiness in terms of the input -----

  predicate VolumeReady(inp: Input, s: Service, v: VolumeUse) {
    && v.kind != "bind" && Users(inp.services, v.source) <= 1 && (s.name, v.source) in inp.mounted
    && Chosen(inp.choices, inp.classes, v.source)
  }

  predicate NetworkReady(inp: Input, s: Service) {
    && "host" !in NetworksOf(inp, s) && (s.name in inp.inspections ==> inp.inspections[s.name].networkMode != "host")
    && (Several(inp) ==> "network_references" in inp.choices.acknowledged)
  }

  predicate PortsReady(inp: Input, s: Service) {
    && (forall i :: 0 <= i < |s.ports| ==> s.ports[i].hostIP == "")
    && (s.ports == [] && Several(inp) ==> "port_unpublished" in inp.choices.acknowledged)
  }

  /** A health check is acknowledged, or there is known to be none. */
  predicate ProbeReady(choices: Choices, i: Inspection) {
    if "image_config" in i.unsupported || (i.health != "" && i.health != "none") then "healthcheck_dropped" in choices.acknowledged
    else i.health == "none"
  }

  predicate CodeReady(choices: Choices, code: string) {
    || code == "image_config" || code == "network"
    || (code in RESOURCE_CODES && "resource_limits_dropped" in choices.acknowledged)
    || (code == "read_only_rootfs" && "read_only_rootfs" in choices.acknowledged)
  }

  predicate InspectionReady(inp: Input, s: Service) {
    && s.name in inp.inspections && ProbeReady(inp.choices, inp.inspections[s.name])
    && (forall i :: 0 <= i < |inp.inspections[s.name].unsupported| ==> CodeReady(inp.choices, inp.inspections[s.name].unsupported[i]))
    && s.restart != "no" && s.restart != "on-failure"
  }

  predicate ServiceReady(inp: Input, s: Service) {
    && (forall i :: 0 <= i < |s.volumes| ==> VolumeReady(inp, s, s.volumes[i]))
    && NetworkReady(inp, s) && PortsReady(inp, s) && InspectionReady(inp, s)
  }

  lemma SupportedAppend(a: seq<Finding>, b: seq<Finding>)
    ensures AllSupported(a + b) <==> AllSupported(a) && AllSupported(b)
  {
    forall i | 0 <= i < |a| ensures (a + b)[i] == a[i] {
    }
    forall i | 0 <= i < |b| ensures (a + b)[|a| + i] == b[i] {
    }
  }

  lemma SupportedOrElse(fs: seq<Finding>, axis: Axis, code: string)
    ensures AllSupported(OrElse(fs, axis, code)) <==> AllSupported(fs)
  {
  }

  lemma SupportedOne(f: Finding)
    ensures AllSupported([f]) <==> f.class_ == Supported
  {
    assert [f][0] == f;
  }

  lemma {:induction false} VolumesSupported(inp: Input, s: Service, n: nat)
    requires n <= |s.volumes|
    ensures AllSupported(VolumeFindings(inp, s, n)) <==> forall i :: 0 <= i < n ==> VolumeReady(inp, s, s.volumes[i])
  {
    hide Users, Chosen;
    if n > 0 {
      VolumesSupported(inp, s, n - 1);
      var f := VolumeFinding(inp, s, s.volumes[n - 1]);
      assert f.class_ == Supported <==> VolumeReady(inp, s, s.volumes[n - 1]);
      hide AllSupported, VolumeReady, VolumeFinding;
      SupportedAppend(VolumeFindings(inp, s, n - 1), [f]);
      SupportedOne(f);
    }
  }

  lemma NetworkSupported(inp: Input, s: Service)
    ensures AllSupported(NetworkFindings(inp, s)) <==> NetworkReady(inp, s)
  {
    var own := OwnNetworking(inp, s);
    var asked := Finding(Networking, Acknowledged(inp.choices, "network_references"), "network_references",
                         if s.name in inp.names then inp.names[s.name] else "");
    assert own != [] ==> own == [own[0]];
    if own != [] {
      SupportedOne(own[0]);
    }
    SupportedAppend(own, [asked]);
    SupportedOne(asked);
    SupportedOrElse(own, Networking, "networking_supported");
  }

  lemma {:induction false} PortsUpToSupported(s: Service, n: nat)
    requires n <= |s.ports|
    ensures AllSupported(PortsUpTo(s, n)) <==> forall i :: 0 <= i < n ==> s.ports[i].hostIP == ""
  {
    if n > 0 {
      PortsUpToSupported(s, n - 1);
      var f := PortFinding(s.ports[n - 1]);
      assert f.class_ == Supported <==> s.ports[n - 1].hostIP == "";
      hide AllSupported, PortFinding;
      SupportedAppend(PortsUpTo(s, n - 1), [f]);
      SupportedOne(f);
    }
  }

  lemma PortsSupported(inp: Input, s: Service)
    ensures AllSupported(PortFindings(inp, s)) <==> PortsReady(inp, s)
  {
    if s.ports != [] {
      PortsUpToSupported(s, |s.ports|);
    } else {
      SupportedOne(PortFindings(inp, s)[0]);
    }
  }

  lemma CodeSupported(choices: Choices, code: string)
    ensures CodeReady(choices, code) <==> AllSupported(CodeFindings(choices, code))
    ensures var fs := CodeFindings(choices, code);
            |fs| <= 1 && (fs != [] ==> fs[0].axis == Resources || fs[0].axis == Scheduling || fs[0].axis == Flags)
  {
    var fs := CodeFindings(choices, code);
    if fs != [] {
      SupportedOne(fs[0]);
      assert fs == [fs[0]];
    }
  }

  predicate CodesOk(choices: Choices, codes: seq<string>) {
    && AllSupported(OnAxis(choices, codes, Resources)) && AllSupported(OnAxis(choices, codes, Scheduling))
    && AllSupported(OnAxis(choices, codes, Flags))
  }

  lemma CodesOkPush(choices: Choices, codes: seq<string>, code: string)
    ensures CodesOk(choices, codes + [code]) <==> CodesOk(choices, codes) && CodeReady(choices, code)
  {
    CodeSupported(choices, code);
    AxisPush(choices, codes, code);
    NoneSupported();
    hide CodeReady, CodeFindings, AllSupported, OnAxis;
    var own := CodeFindings(choices, code);
    SupportedAppend(OnAxis(choices, codes, Resources), own);
    SupportedAppend(OnAxis(choices, codes, Scheduling), own);
    SupportedAppend(OnAxis(choices, codes, Flags), own);
  }

  /** The codes' findings are supported on all three axes exactly when every code is. */
  lemma {:induction false} CodesSupported(choices: Choices, codes: seq<string>)
    ensures CodesOk(choices, codes) <==> forall i :: 0 <= i < |codes| ==> CodeReady(choices, codes[i])
  {
    if codes != [] {
      hide CodeReady, CodesOk;
      var most, code := codes[..|codes| - 1], codes[|codes| - 1];
      CodesSupported(choices, most);
      assert most + [code] == codes;
      CodesOkPush(choices, most, code);
    }
  }

  lemma NoneSupported()
    ensures AllSupported([])
  {
  }

  lemma RestartSupported(s: Service)
    ensures AllSupported(RestartFindings(s)) <==> s.restart != "no" && s.restart != "on-failure"
  {
    if RestartFindings(s) != [] {
      SupportedOne(RestartFindings(s)[0]);
    }
  }

  lemma InspectionSupported(inp: Input, s: Service)
    ensures AllSupported(InspectedAxes(inp, s)) <==> InspectionReady(inp, s)
  {
    if s.name !in inp.inspections {
      assert Uninspected(s)[0].class_ == ChoiceRequired;
    } else {
      var c, i := inp.choices, inp.inspections[s.name];
      ProbeSupported(c, i);
      RestartSupported(s);
      CodesSupported(c, i.unsupported);
      hide AllSupported, ProbeFinding, OnAxis, RestartFindings, OrElse, CodeReady, ProbeReady;
      var r, d, f := OnAxis(c, i.unsupported, Resources), OnAxis(c, i.unsupported, Scheduling), OnAxis(c, i.unsupported, Flags);
      SupportedOrElse(r, Resources, "resources_supported");
      SupportedOrElse(d, Scheduling, "scheduling_supported");
      SupportedOrElse(f + RestartFindings(s), Flags, "flags_supported");
      SupportedAppend(f, RestartFindings(s));
      var p := [ProbeFinding(c, i)];
      var r1, d1 := OrElse(r, Resources, "resources_supported"), OrElse(d, Scheduling, "scheduling_supported");
      SupportedAppend(p, r1);
      SupportedAppend(p + r1, d1);
      SupportedAppend(p + r1 + d1, OrElse(f + RestartFindings(s), Flags, "flags_supported"));
    }
  }

  lemma ProbeSupported(choices: Choices, i: Inspection)
    ensures AllSupported([ProbeFinding(choices, i)]) <==> ProbeReady(choices, i)
  {
    SupportedOne(ProbeFinding(choices, i));
  }

  lemma FindingsSupported(inp: Input, s: Service)
    ensures AllSupported(Findings(inp, s)) <==> ServiceReady(inp, s)
  {
    VolumesSupported(inp, s, |s.volumes|);
    hide AllSupported, VolumeReady, VolumeFindings, OrElse, NetworkFindings, NetworkReady, PortFindings, PortsReady, InspectedAxes, InspectionReady;
    SupportedOrElse(VolumeFindings(inp, s, |s.volumes|), Storage, "storage_supported");
    NetworkSupported(inp, s);
    PortsSupported(inp, s);
    InspectionSupported(inp, s);
    var a, n, p, i := StorageFindings(inp, s), NetworkFindings(inp, s), PortFindings(inp, s), InspectedAxes(inp, s);
    var sec := [Finding(Secrets, Supported, "secrets_supported", "")];
    SupportedOne(sec[0]);
    assert sec == [sec[0]];
    SupportedAppend(a, n);
    SupportedAppend(a + n, p);
    SupportedAppend(a + n + p, sec);
    SupportedAppend(a + n + p + sec, i);
  }

  /**
   A report is ready if and only if every service uses only its own verified volumes with a standing
   choice, no host network, no port bound to a host address, no restart policy the cluster lacks, was
   inspected with nothing that blocks, and everything it would drop is acknowledged.
   */
  lemma ReadyFromInput(inp: Input)
    ensures Ready(inp) <==> forall i :: 0 <= i < |inp.services| ==> ServiceReady(inp, inp.services[i])
  {
    hide Findings, ServiceReady, AllSupported, Ready;
    ReadyExactly(inp);
    forall i | 0 <= i < |inp.services| ensures AllSupported(Findings(inp, inp.services[i])) <==> ServiceReady(inp, inp.services[i]) {
      FindingsSupported(inp, inp.services[i]);
    }
  }

  /** Nothing unexamined is called ready: each service was inspected, by an agent that reports health. */
  lemma ReadyMeansInspected(inp: Input, k: nat)
    requires Ready(inp) && k < |inp.services|
    ensures inp.services[k].name in inp.inspections
    ensures inp.inspections[inp.services[k].name].health != "" || "image_config" in inp.inspections[inp.services[k].name].unsupported
  {
    var s := inp.services[k];
    WorstSupported(Findings(inp, s));
    var fs, axes := Findings(inp, s), InspectedAxes(inp, s);
    assert axes[0] == fs[|fs| - |axes|];
    hide StorageFindings, NetworkFindings, PortFindings;
  }

  // ----- More choices -----

  /** Everything acknowledged or chosen before still is. */
  predicate Extends(a: Choices, b: Choices) {
    && a.acknowledged <= b.acknowledged
    && forall v :: v in a.volumes ==> v in b.volumes && b.volumes[v] == a.volumes[v]
  }

  /** The same finding, no more severe; a drop may now say it was acknowledged. */
  predicate Eased(f: Finding, g: Finding) {
    && g.axis == f.axis && g.code == f.code
    && (g.detail == f.detail || (f.detail == "" && g.detail == "acknowledged"))
    && Severity(g.class_) <= Severity(f.class_)
  }

  predicate AllEased(fs: seq<Finding>, gs: seq<Finding>) {
    |fs| == |gs| && forall i :: 0 <= i < |fs| ==> Eased(fs[i], gs[i])
  }

  lemma EasedAppend(a: seq<Finding>, a': seq<Finding>, b: seq<Finding>, b': seq<Finding>)
    requires AllEased(a, a') && AllEased(b, b')
    ensures AllEased(a + b, a' + b')
  {
    hide Eased;
  }

  lemma EasedOrElse(a: seq<Finding>, a': seq<Finding>, axis: Axis, code: string)
    requires AllEased(a, a')
    ensures AllEased(OrElse(a, axis, code), OrElse(a', axis, code))
  {
  }

  lemma {:induction false} VolumesEased(inp: Input, more: Choices, s: Service, n: nat)
    requires n <= |s.volumes| && Extends(inp.choices, more)
    ensures AllEased(VolumeFindings(inp, s, n), VolumeFindings(inp.(choices := more), s, n))
  {
    if n > 0 {
      VolumesEased(inp, more, s, n - 1);
      VolumeEased(inp, more, s, s.volumes[n - 1]);
      hide VolumeFinding, Eased;
    }
  }

  lemma VolumeEased(inp: Input, more: Choices, s: Service, v: VolumeUse)
    requires Extends(inp.choices, more)
    ensures Eased(VolumeFinding(inp, s, v), VolumeFinding(inp.(choices := more), s, v))
  {
    hide Users;
  }

  lemma {:induction false} AxisEased(a: Choices, b: Choices, codes: seq<string>, axis: Axis)
    requires Extends(a, b)
    ensures AllEased(OnAxis(a, codes, axis), OnAxis(b, codes, axis))
  {
    if codes != [] {
      var most, code := codes[..|codes| - 1], codes[|codes| - 1];
      AxisEased(a, b, most, axis);
      var fa, fb := CodeFindings(a, code), CodeFindings(b, code);
      assert AllEased(fa, fb) && (fa != [] ==> fa[0].axis == fb[0].axis);
      hide CodeFindings, AllEased;
      assert AllEased([], []) by { NoneEased(); }
      EasedAppend(OnAxis(a, most, axis), OnAxis(b, most, axis),
                  if fa != [] && fa[0].axis == axis then fa else [], if fb != [] && fb[0].axis == axis then fb else []);
    }
  }

  lemma NoneEased()
    ensures AllEased([], [])
  {
  }

  lemma SameEased(fs: seq<Finding>)
    ensures AllEased(fs, fs)
  {
  }

  lemma InspectedEased(a: Choices, b: Choices, s: Service, i: Inspection)
    requires Extends(a, b)
    ensures AllEased(Inspected(a, s, i), Inspected(b, s, i))
  {
    assert AllEased([ProbeFinding(a, i)], [ProbeFinding(b, i)]);
    var codes := i.unsupported;
    hide OnAxis, AllEased, ProbeFinding, RestartFindings, OrElse, Extends;
    AxisEased(a, b, codes, Resources);
    AxisEased(a, b, codes, Scheduling);
    AxisEased(a, b, codes, Flags);
    SameEased(RestartFindings(s));
    EasedAppend(OnAxis(a, codes, Flags), OnAxis(b, codes, Flags), RestartFindings(s), RestartFindings(s));
    EasedOrElse(OnAxis(a, codes, Resources), OnAxis(b, codes, Resources), Resources, "resources_supported");
    EasedOrElse(OnAxis(a, codes, Scheduling), OnAxis(b, codes, Scheduling), Scheduling, "scheduling_supported");
    EasedOrElse(OnAxis(a, codes, Flags) + RestartFindings(s), OnAxis(b, codes, Flags) + RestartFindings(s), Flags, "flags_supported");
    var pa, pb := [ProbeFinding(a, i)], [ProbeFinding(b, i)];
    var ra, rb := OrElse(OnAxis(a, codes, Resources), Resources, "resources_supported"), OrElse(OnAxis(b, codes, Resources), Resources, "resources_supported");
    var sa, sb := OrElse(OnAxis(a, codes, Scheduling), Scheduling, "scheduling_supported"), OrElse(OnAxis(b, codes, Scheduling), Scheduling, "scheduling_supported");
    EasedAppend(pa, pb, ra, rb);
    EasedAppend(pa + ra, pb + rb, sa, sb);
    EasedAppend(pa + ra + sa, pb + rb + sb,
                OrElse(OnAxis(a, codes, Flags) + RestartFindings(s), Flags, "flags_supported"),
                OrElse(OnAxis(b, codes, Flags) + RestartFindings(s), Flags, "flags_supported"));
  }

  lemma NetworkEased(inp: Input, more: Choices, s: Service)
    requires Extends(inp.choices, more)
    ensures AllEased(NetworkFindings(inp, s), NetworkFindings(inp.(choices := more), s))
  {
  }

  lemma PortsEased(inp: Input, more: Choices, s: Service)
    requires Extends(inp.choices, more)
    ensures AllEased(PortFindings(inp, s), PortFindings(inp.(choices := more), s))
  {
    SameEased(PortsUpTo(s, |s.ports|));
  }

  /** More acknowledgements and choices change no finding but its class, and that only for the better. */
  lemma ChoicesOnlyEase(inp: Input, more: Choices, s: Service)
    requires Extends(inp.choices, more)
    ensures AllEased(Findings(inp, s), Findings(inp.(choices := more), s))
  {
    var inp' := inp.(choices := more);
    VolumesEased(inp, more, s, |s.volumes|);
    EasedOrElse(VolumeFindings(inp, s, |s.volumes|), VolumeFindings(inp', s, |s.volumes|), Storage, "storage_supported");
    NetworkEased(inp, more, s);
    PortsEased(inp, more, s);
    var sec := [Finding(Secrets, Supported, "secrets_supported", "")];
    SameEased(sec);
    if s.name in inp.inspections {
      InspectedEased(inp.choices, more, s, inp.inspections[s.name]);
    } else {
      SameEased(Uninspected(s));
    }
    var a, a' := StorageFindings(inp, s), StorageFindings(inp', s);
    var n, n' := NetworkFindings(inp, s), NetworkFindings(inp', s);
    var p, p' := PortFindings(inp, s), PortFindings(inp', s);
    var i, i' := InspectedAxes(inp, s), InspectedAxes(inp', s);
    assert AllEased(a, a') && AllEased(n, n') && AllEased(p, p') && AllEased(i, i');
    hide AllEased, StorageFindings, NetworkFindings, PortFindings, InspectedAxes;
    EasedAppend(a, a', n, n');
    EasedAppend(a + n, a' + n', p, p');
    EasedAppend(a + n + p, a' + n' + p', sec, sec);
    EasedAppend(a + n + p + sec, a' + n' + p' + sec, i, i');
  }

  /** So a ready report stays ready. */
  lemma StaysReady(inp: Input, more: Choices)
    requires Ready(inp) && Extends(inp.choices, more)
    ensures Ready(inp.(choices := more))
  {
    var inp' := inp.(choices := more);
    hide Findings, Worst;
    forall k | 0 <= k < |inp.services| ensures Worst(Findings(inp', inp.services[k])) == Supported {
      var s := inp.services[k];
      ChoicesOnlyEase(inp, more, s);
      WorstSupported(Findings(inp, s));
      WorstSupported(Findings(inp', s));
    }
  }

  // ----- The analysis as it runs -----

  function Counted(users: map<string, nat>, source: string): (n: nat) {
    if source in users then users[source] else 0
  }

  /** A service's named volumes, each counted once. */
  method CountService(users: map<string, nat>, s: Service) returns (more: map<string, nat>)
    ensures forall source :: Counted(more, source) == Counted(users, source) + if UsesNamed(s, source) then 1 else 0
  {
    more := users;
    var seen: set<string> := {};
    for i := 0 to |s.volumes|
      invariant forall source :: source in seen <==> exists k :: 0 <= k < i && s.volumes[k].kind == "named" && s.volumes[k].source == source
      invariant forall source :: Counted(more, source) == Counted(users, source) + if source in seen then 1 else 0
    {
      var v := s.volumes[i];
      if v.kind == "named" && v.source !in seen {
        seen := seen + {v.source};
        more := more[v.source := Counted(more, v.source) + 1];
      }
    }
  }

  method CountUsers(services: seq<Service>) returns (users: map<string, nat>)
    ensures forall source :: Counted(users, source) == Users(services, source)
  {
    users := map[];
    hide UsesNamed;
    for i := 0 to |services|
      invariant forall source :: Counted(users, source) == Users(services[..i], source)
    {
      assert services[..i + 1][..i] == services[..i];
      users := CountService(users, services[i]);
    }
    assert services[..|services|] == services;
  }

  method StorageOf(inp: Input, s: Service, users: map<string, nat>) returns (fs: seq<Finding>)
    requires forall source :: Counted(users, source) == Users(inp.services, source)
    ensures fs == StorageFindings(inp, s)
  {
    hide Users, Chosen;
    fs := [];
    for i := 0 to |s.volumes|
      invariant fs == VolumeFindings(inp, s, i)
    {
      var v := s.volumes[i];
      if v.kind == "bind" {
        fs := fs + [Finding(Storage, Blocked, "volume_bind", v.target)];
      } else if Counted(users, v.source) > 1 {
        fs := fs + [Finding(Storage, Blocked, "volume_named_shared", v.source)];
      } else if (s.name, v.source) !in inp.mounted {
        fs := fs + [Finding(Storage, Blocked, "volume_unverified", v.source)];
      } else {
        var code := "volume_named";
        if v.source in inp.external {
          code := "volume_external";
        }
        var class_ := ChoiceRequired;
        if Chosen(inp.choices, inp.classes, v.source) {
          class_ := Supported;
        }
        fs := fs + [Finding(Storage, class_, code, v.source)];
      }
    }
    if |fs| == 0 {
      fs := [Finding(Storage, Supported, "storage_supported", "")];
    }
  }

  method PortsOf(inp: Input, s: Service) returns (fs: seq<Finding>)
    ensures fs == PortFindings(inp, s)
  {
    fs := [];
    for i := 0 to |s.ports|
      invariant fs == PortsUpTo(s, i)
    {
      fs := fs + [PortFinding(s.ports[i])];
    }
    if |fs| == 0 {
      var class_ := Supported;
      if |inp.services| > 1 {
        class_ := Acknowledged(inp.choices, "port_unpublished");
      }
      fs := [Finding(Ports, class_, "port_unpublished", "")];
    }
  }

  /** The codes of an inspection sorted into their axes. */
  method SortCodes(choices: Choices, codes: seq<string>) returns (resources: seq<Finding>, scheduling: seq<Finding>, flags: seq<Finding>)
    ensures resources == OnAxis(choices, codes, Resources)
    ensures scheduling == OnAxis(choices, codes, Scheduling)
    ensures flags == OnAxis(choices, codes, Flags)
  {
    resources, scheduling, flags := [], [], [];
    for i := 0 to |codes|
      invariant resources == OnAxis(choices, codes[..i], Resources)
      invariant scheduling == OnAxis(choices, codes[..i], Scheduling)
      invariant flags == OnAxis(choices, codes[..i], Flags)
    {
      var c := codes[i];
      AxisPush(choices, codes[..i], c);
      assert codes[..i + 1] == codes[..i] + [c];
      hide OnAxis;
      if c == "image_config" || c == "network" {
      } else if c in RESOURCE_CODES {
        resources := resources + [Drop(choices, Resources, "resource_limits_dropped", c)];
      } else if c in SCHEDULING_CODES {
        scheduling := scheduling + [Finding(Scheduling, Blocked, "scheduling_blocked", c)];
      } else if c == "read_only_rootfs" {
        flags := flags + [Drop(choices, Flags, "read_only_rootfs", "")];
      } else {
        flags := flags + [Finding(Flags, Blocked, "flag_blocked", c)];
      }
    }
    assert codes[..|codes|] == codes;
  }

  lemma AxisPush(choices: Choices, codes: seq<string>, code: string)
    ensures forall axis :: OnAxis(choices, codes + [code], axis) ==
              var own := CodeFindings(choices, code);
              if own != [] && own[0].axis == axis then OnAxis(choices, codes, axis) + own else OnAxis(choices, codes, axis)
  {
    assert (codes + [code])[..|codes|] == codes;
  }

  method InspectedOf(inp: Input, s: Service) returns (fs: seq<Finding>)
    ensures fs == InspectedAxes(inp, s)
  {
    if s.name !in inp.inspections {
      return Uninspected(s);
    }
    var i := inp.inspections[s.name];
    var resources, scheduling, flags := SortCodes(inp.choices, i.unsupported);
    OnAxisOnly(inp.choices, i.unsupported, Resources);
    OnAxisOnly(inp.choices, i.unsupported, Scheduling);
    OnAxisOnly(inp.choices, i.unsupported, Flags);
    hide OnAxis, ProbeFinding;
    resources := OrElse(resources, Resources, "resources_supported");
    scheduling := OrElse(scheduling, Scheduling, "scheduling_supported");
    fs := [ProbeFinding(inp.choices, i)] + resources + scheduling;
    ProbesOnly(inp.choices, i);
    flags := flags + RestartFindings(s);
    FlagsAmong(fs, flags);
    hide RestartFindings;
    fs := fs + flags;
    if !exists k :: 0 <= k < |fs| && fs[k].axis == Flags {
      fs := fs + [Finding(Flags, Supported, "flags_supported", "")];
    }
  }

  lemma FlagsAmong(front: seq<Finding>, flags: seq<Finding>)
    requires forall k :: 0 <= k < |front| ==> front[k].axis != Flags
    requires forall k :: 0 <= k < |flags| ==> flags[k].axis == Flags
    ensures (exists k :: 0 <= k < |front + flags| && (front + flags)[k].axis == Flags) <==> flags != []
  {
    if flags != [] {
      assert (front + flags)[|front|] == flags[0];
    }
  }

  lemma ProbesOnly(choices: Choices, i: Inspection)
    ensures ProbeFinding(choices, i).axis == Probes
  {
  }

  predicate ByName(rs: seq<ServiceReport>) {
    forall i, j :: 0 <= i < j < |rs| ==> !Less(rs[j].name, rs[i].name)
  }

  method InsertReport(rs: seq<ServiceReport>, r: ServiceReport) returns (longer: seq<ServiceReport>)
    requires ByName(rs)
    ensures ByName(longer) && multiset(longer) == multiset(rs) + multiset{r}
  {
    hide Less;
    var k := |rs|;
    while k > 0 && Less(r.name, rs[k - 1].name)
      invariant 0 <= k <= |rs|
      invariant forall i :: k <= i < |rs| ==> Less(r.name, rs[i].name)
    {
      k := k - 1;
    }
    longer := rs[..k] + [r] + rs[k..];
    assert rs == rs[..k] + rs[k..];
    Inserted(rs, r, k);
  }

  lemma Inserted(rs: seq<ServiceReport>, r: ServiceReport, k: nat)
    requires ByName(rs) && k <= |rs|
    requires k > 0 ==> !Less(r.name, rs[k - 1].name)
    requires forall i :: k <= i < |rs| ==> Less(r.name, rs[i].name)
    ensures ByName(rs[..k] + [r] + rs[k..])
  {
    hide Less;
    forall i | 0 <= i < k ensures !Less(r.name, rs[i].name) {
      if i < k - 1 {
        NotBefore(r.name, rs[k - 1].name, rs[i].name);
      }
    }
    forall i | k <= i < |rs| ensures !Less(rs[i].name, r.name) {
      LessAsymmetric(r.name, rs[i].name);
    }
  }

  /** If r is not before the last, and the last is not before x, then r is not before x. */
  lemma NotBefore(r: string, last: string, x: string)
    requires !Less(r, last) && !Less(last, x)
    ensures !Less(r, x)
  {
    hide Less;
    if Less(r, x) {
      LessTotal(x, last);
      if x != last {
        LessTransitive(r, x, last);
      }
    }
  }

  /** The whole report: each service's, sorted by name, and ready when all of them are. */
  method Analyze(inp: Input) returns (services: seq<ServiceReport>, ready: bool)
    ensures ByName(services) && multiset(services) == multiset(Reports(inp, |inp.services|))
    ensures ready <==> Ready(inp)
  {
    hide *;
    services, ready := [], true;
    var users := CountUsers(inp.services);
    NothingReported(inp);
    for i := 0 to |inp.services|
      invariant ByName(services) && multiset(services) == multiset(Reports(inp, i))
      invariant ready <==> ReadyTo(inp, i)
    {
      var r := ReportService(inp, inp.services[i], users);
      OneMoreReport(inp, i);
      ready := ready && r.class_ == Supported;
      services := InsertReport(services, r);
    }
    AllReported(inp);
  }

  lemma NothingReported(inp: Input)
    ensures Reports(inp, 0) == [] && ReadyTo(inp, 0) && ByName([])
  {
  }

  lemma OneMoreReport(inp: Input, n: nat)
    requires n < |inp.services|
    ensures Reports(inp, n + 1) == Reports(inp, n) + [ReportOf(inp, inp.services[n])]
    ensures ReadyTo(inp, n + 1) <==> ReadyTo(inp, n) && ReportOf(inp, inp.services[n]).class_ == Supported
  {
    hide Findings, Worst;
  }

  lemma AllReported(inp: Input)
    ensures ReadyTo(inp, |inp.services|) <==> Ready(inp)
  {
    hide Findings, Worst;
  }

  predicate ReadyTo(inp: Input, n: nat)
    requires n <= |inp.services|
  {
    forall k :: 0 <= k < n ==> Worst(Findings(inp, inp.services[k])) == Supported
  }

  method ReportService(inp: Input, s: Service, users: map<string, nat>) returns (r: ServiceReport)
    requires forall source :: Counted(users, source) == Users(inp.services, source)
    ensures r == ReportOf(inp, s)
  {
    var findings := FindingsOf(inp, s, users);
    var class_ := WorstOf(findings);
    r := ServiceReport(s.name, class_, findings);
  }

  method FindingsOf(inp: Input, s: Service, users: map<string, nat>) returns (fs: seq<Finding>)
    requires forall source :: Counted(users, source) == Users(inp.services, source)
    ensures fs == Findings(inp, s)
  {
    hide StorageFindings, PortFindings, InspectedAxes;
    fs := StorageOf(inp, s, users);
    var network := OwnNetworking(inp, s);
    if |inp.services| > 1 {
      network := network + [Finding(Networking, Acknowledged(inp.choices, "network_references"), "network_references",
                                    if s.name in inp.names then inp.names[s.name] else "")];
    } else if |network| == 0 {
      network := [Finding(Networking, Supported, "networking_supported", "")];
    }
    var ports := PortsOf(inp, s);
    var inspected := InspectedOf(inp, s);
    fs := fs + network + ports + [Finding(Secrets, Supported, "secrets_supported", "")] + inspected;
  }

  method WorstOf(fs: seq<Finding>) returns (c: Class)
    ensures c == Worst(fs)
  {
    c := Supported;
    for i := 0 to |fs|
      invariant c == Worst(fs[..i])
    {
      assert fs[..i + 1][..i] == fs[..i];
      if Severity(fs[i].class_) > Severity(c) {
        c := fs[i].class_;
      }
    }
    assert fs[..|fs|] == fs;
  }
}
