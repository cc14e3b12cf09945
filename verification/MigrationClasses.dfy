/** The class and the code of every migration finding, told over the application, its inspection and the choices alone. */
module MigrationClasses {
  import opened MigrationReport
  import opened Text

  // ----- Storage -----

  /** The service mounts the named volume. */
  predicate MountsNamed(s: Service, source: string) {
    exists v :: v in s.volumes && v.kind == "named" && v.source == source
  }

  /** Two services mount the named volume. */
  predicate SharedVolume(services: seq<Service>, source: string) {
    exists i, j :: 0 <= i < j < |services| && MountsNamed(services[i], source) && MountsNamed(services[j], source)
  }

  lemma MountsIsUses(s: Service, source: string)
    ensures MountsNamed(s, source) <==> UsesNamed(s, source)
  {
    if UsesNamed(s, source) {
      var i :| 0 <= i < |s.volumes| && s.volumes[i].kind == "named" && s.volumes[i].source == source;
      assert s.volumes[i] in s.volumes;
    }
  }

  lemma {:induction false} SharedExactly(services: seq<Service>, source: string)
    ensures Users(services, source) >= 1 <==> exists i :: 0 <= i < |services| && MountsNamed(services[i], source)
    ensures Users(services, source) > 1 <==> SharedVolume(services, source)
  {
    hide MountsNamed, UsesNamed;
    if services != [] {
      var n := |services| - 1;
      var front := services[..n];
      SharedExactly(front, source);
      MountsIsUses(services[n], source);
      assert forall i :: 0 <= i < n ==> front[i] == services[i];
      assert SharedVolume(services, source) <==>
             SharedVolume(front, source) || (MountsNamed(services[n], source) && exists i :: 0 <= i < n && MountsNamed(front[i], source)) by {
        SharedGrows(services, source);
      }
    }
  }

  lemma SharedGrows(services: seq<Service>, source: string)
    requires services != []
    ensures var n := |services| - 1;
            SharedVolume(services, source) <==>
            SharedVolume(services[..n], source) || (MountsNamed(services[n], source) && exists i :: 0 <= i < n && MountsNamed(services[..n][i], source))
  {
    hide MountsNamed;
    var n := |services| - 1;
    var front := services[..n];
    if i, j :| 0 <= i < j < |services| && MountsNamed(services[i], source) && MountsNamed(services[j], source) {
      assert front[i] == services[i];
      assert j < n ==> front[j] == services[j];
    }
    if i, j :| 0 <= i < j < n && MountsNamed(front[i], source) && MountsNamed(front[j], source) {
      assert services[i] == front[i] && services[j] == front[j];
    }
    if i :| 0 <= i < n && MountsNamed(front[i], source) && MountsNamed(services[n], source) {
      assert services[i] == front[i];
    }
  }

  /** The operator's choice for the volume is valid and names a class there is, or takes the default one. */
  predicate ChoiceStands(inp: Input, volume: string) {
    && volume in inp.choices.volumes && inp.choices.volumes[volume].valid
    && exists c :: c in inp.classes && (c.name == inp.choices.volumes[volume].storageClass
                                        || (inp.choices.volumes[volume].storageClass == "" && c.isDefault))
  }

  lemma ChoiceIsChosen(inp: Input, volume: string)
    ensures ChoiceStands(inp, volume) <==> Chosen(inp.choices, inp.classes, volume)
  {
    if Chosen(inp.choices, inp.classes, volume) {
      var i :| 0 <= i < |inp.classes| &&
        (inp.classes[i].name == inp.choices.volumes[volume].storageClass || (inp.choices.volumes[volume].storageClass == "" && inp.classes[i].isDefault));
      assert inp.classes[i] in inp.classes;
    }
  }

  /**
   A volume is blocked exactly if it is a bind mount, is shared, or its mount was not verified, in that
   order; otherwise it is supported exactly if its choice stands, and asks for one if not. The code says
   which, and the detail names the target of a bind mount and else the volume.
   */
  lemma VolumeExactly(inp: Input, s: Service, v: VolumeUse)
    ensures var f := VolumeFinding(inp, s, v);
            var bind, shared, mounted := v.kind == "bind", SharedVolume(inp.services, v.source), (s.name, v.source) in inp.mounted;
            && f.axis == Storage && f.detail == (if bind then v.target else v.source)
            && (f.code == "volume_bind" <==> bind)
            && (f.code == "volume_named_shared" <==> !bind && shared)
            && (f.code == "volume_unverified" <==> !bind && !shared && !mounted)
            && (f.code == "volume_external" <==> !bind && !shared && mounted && v.source in inp.external)
            && (f.code == "volume_named" <==> !bind && !shared && mounted && v.source !in inp.external)
            && (f.class_ == Blocked <==> bind || shared || !mounted)
            && (f.class_ == Supported <==> !bind && !shared && mounted && ChoiceStands(inp, v.source))
  {
    SharedExactly(inp.services, v.source);
    ChoiceIsChosen(inp, v.source);
    hide Users, Chosen, SharedVolume, ChoiceStands;
  }

  // ----- Networks and ports -----

  /** The mapped container is on the host's network, or is said to be. */
  predicate OnHost(inp: Input, s: Service) {
    || (s.name in inp.networks && "host" in inp.networks[s.name])
    || (s.name in inp.inspections && inp.inspections[s.name].networkMode == "host")
  }

  /** It is on several networks, or is said to be, or its network is said to be unsupported. */
  predicate OnSeveral(inp: Input, s: Service) {
    || (s.name in inp.networks && |inp.networks[s.name]| > 1)
    || (s.name in inp.inspections && (inp.inspections[s.name].networkCount > 1 || "network" in inp.inspections[s.name].unsupported))
  }

  /**
   A service on the host's network is blocked, and one on several is noted; then with other services its
   references to them are to be acknowledged, and without them networking is supported unless something
   was said.
   */
  lemma NetworkExactly(inp: Input, s: Service)
    ensures NetworkFindings(inp, s) ==
            (if OnHost(inp, s) then [Finding(Networking, Blocked, "network_host", "")]
             else if OnSeveral(inp, s) then [Finding(Networking, Supported, "networks_multiple", "")]
             else [])
            + (if |inp.services| > 1 then
                 [Finding(Networking, if "network_references" in inp.choices.acknowledged then Supported else ChoiceRequired, "network_references",
                          if s.name in inp.names then inp.names[s.name] else "")]
               else if OnHost(inp, s) || OnSeveral(inp, s) then []
               else [Finding(Networking, Supported, "networking_supported", "")])
  {
  }

  /** Every published port is blocked exactly if it is bound to a host address; without one, other services make it a question. */
  lemma PortsExactly(inp: Input, s: Service)
    ensures var fs := PortFindings(inp, s);
            if s.ports == [] then
              fs == [Finding(Ports, if |inp.services| > 1 && "port_unpublished" !in inp.choices.acknowledged then ChoiceRequired else Supported,
                             "port_unpublished", "")]
            else
              && |fs| == |s.ports|
              && forall i :: 0 <= i < |fs| ==>
                   && fs[i].axis == Ports && fs[i].detail == Decimal(s.ports[i].published) + "/" + s.ports[i].protocol
                   && fs[i].class_ == (if s.ports[i].hostIP == "" then Supported else Blocked)
                   && fs[i].code == (if s.ports[i].hostIP == "" then "port_published" else "port_host_ip")
  {
    if s.ports != [] {
      PortsAre(s, |s.ports|);
    }
  }

  lemma {:induction false} PortsAre(s: Service, n: nat)
    requires n <= |s.ports|
    ensures forall i :: 0 <= i < n ==> PortsUpTo(s, n)[i] == PortFinding(s.ports[i])
  {
    if n > 0 {
      PortsAre(s, n - 1);
    }
  }

  // ----- What an inspection shows -----

  /**
   A health check is dropped with an acknowledgement, and unknown to an agent that does not report it.
   */
  lemma ProbeExactly(choices: Choices, i: Inspection)
    ensures var f := ProbeFinding(choices, i);
            var checked := "image_config" in i.unsupported || (i.health != "" && i.health != "none");
            && f.axis == Probes
            && (f.code == "healthcheck_dropped" <==> checked)
            && (f.code == "inspection_unavailable" <==> !checked && i.health == "")
            && (f.code == "probes_supported" <==> !checked && i.health == "none")
            && (f.class_ == Supported <==> (checked && "healthcheck_dropped" in choices.acknowledged) || (!checked && i.health == "none"))
            && f.class_ != Blocked
            && f.detail == (if f.code == "inspection_unavailable" then "agent" else if checked && f.class_ == Supported then "acknowledged" else "")
  {
  }

  /**
   Each code an inspection reports is dropped with an acknowledgement if it is a resource limit or a
   read-only root, is another axis's if it is the image's or the network's, and else blocks.
   */
  lemma CodeExactly(choices: Choices, code: string)
    ensures CodeFindings(choices, code) ==
            if code in ["image_config", "network"] then []
            else if code in ["resource_limits", "ulimits"] then
              [Finding(Resources, if "resource_limits_dropped" in choices.acknowledged then Supported else ChoiceRequired, "resource_limits_dropped", code)]
            else if code in ["pid_mode", "ipc_mode", "cgroup_parent", "userns_mode", "runtime"] then
              [Finding(Scheduling, Blocked, "scheduling_blocked", code)]
            else if code == "read_only_rootfs" then
              (if "read_only_rootfs" in choices.acknowledged then [Finding(Flags, Supported, "read_only_rootfs", "acknowledged")]
               else [Finding(Flags, ChoiceRequired, "read_only_rootfs", "")])
            else [Finding(Flags, Blocked, "flag_blocked", code)]
  {
    assert code in RESOURCE_CODES <==> code in ["resource_limits", "ulimits"];
    assert code in SCHEDULING_CODES <==> code in ["pid_mode", "ipc_mode", "cgroup_parent", "userns_mode", "runtime"];
    assert code in ["resource_limits", "ulimits"] ==> code != "";
  }

  // ----- The class of a service -----

  ghost predicate HasBlocked(fs: seq<Finding>) {
    exists i :: 0 <= i < |fs| && fs[i].class_ == Blocked
  }

  lemma WorstBlocked(fs: seq<Finding>)
    ensures Worst(fs) == Blocked <==> HasBlocked(fs)
  {
    if HasBlocked(fs) {
      var i :| 0 <= i < |fs| && fs[i].class_ == Blocked;
      assert Severity(fs[i].class_) <= Severity(Worst(fs));
    }
  }

  lemma BlockedAppend(a: seq<Finding>, b: seq<Finding>)
    ensures HasBlocked(a + b) <==> HasBlocked(a) || HasBlocked(b)
  {
    if i :| 0 <= i < |a| && a[i].class_ == Blocked {
      assert (a + b)[i] == a[i];
    }
    if i :| 0 <= i < |b| && b[i].class_ == Blocked {
      assert (a + b)[|a| + i] == b[i];
    }
  }

  lemma BlockedOne(f: Finding)
    ensures HasBlocked([f]) <==> f.class_ == Blocked
  {
    assert [f][0] == f;
  }

  lemma BlockedNone()
    ensures !HasBlocked([])
  {
  }

  lemma BlockedOrElse(fs: seq<Finding>, axis: Axis, code: string)
    ensures HasBlocked(OrElse(fs, axis, code)) <==> HasBlocked(fs)
  {
  }

  predicate VolumeBlocks(inp: Input, s: Service, v: VolumeUse) {
    v.kind == "bind" || SharedVolume(inp.services, v.source) || (s.name, v.source) !in inp.mounted
  }

  lemma {:induction false} VolumesBlocked(inp: Input, s: Service, n: nat)
    requires n <= |s.volumes|
    ensures HasBlocked(VolumeFindings(inp, s, n)) <==> exists i :: 0 <= i < n && VolumeBlocks(inp, s, s.volumes[i])
  {
    hide HasBlocked, VolumeFinding, SharedVolume, ChoiceStands;
    if n == 0 {
      BlockedNone();
    } else {
      VolumesBlocked(inp, s, n - 1);
      var f := VolumeFinding(inp, s, s.volumes[n - 1]);
      VolumeExactly(inp, s, s.volumes[n - 1]);
      BlockedAppend(VolumeFindings(inp, s, n - 1), [f]);
      BlockedOne(f);
    }
  }

  lemma StorageBlocked(inp: Input, s: Service)
    ensures HasBlocked(StorageFindings(inp, s)) <==> exists v :: v in s.volumes && VolumeBlocks(inp, s, v)
  {
    hide HasBlocked, OrElse, VolumeFindings, VolumeBlocks;
    VolumesBlocked(inp, s, |s.volumes|);
    BlockedOrElse(VolumeFindings(inp, s, |s.volumes|), Storage, "storage_supported");
    if v :| v in s.volumes && VolumeBlocks(inp, s, v) {
      var i :| 0 <= i < |s.volumes| && s.volumes[i] == v;
      assert VolumeBlocks(inp, s, s.volumes[i]);
    }
    if i :| 0 <= i < |s.volumes| && VolumeBlocks(inp, s, s.volumes[i]) {
      assert s.volumes[i] in s.volumes;
    }
  }

  lemma NetworkBlocked(inp: Input, s: Service)
    ensures HasBlocked(NetworkFindings(inp, s)) <==> OnHost(inp, s)
  {
    NetworkExactly(inp, s);
    var fs := NetworkFindings(inp, s);
    hide NetworkFindings;
    assert OnHost(inp, s) ==> fs[0].class_ == Blocked;
  }

  lemma PortsBlocked(inp: Input, s: Service)
    ensures HasBlocked(PortFindings(inp, s)) <==> exists p :: p in s.ports && p.hostIP != ""
  {
    PortsExactly(inp, s);
    var fs := PortFindings(inp, s);
    hide PortFindings, Decimal;
    if p :| p in s.ports && p.hostIP != "" {
      var i :| 0 <= i < |s.ports| && s.ports[i] == p;
      assert fs[i].class_ == Blocked;
    }
    if i :| 0 <= i < |fs| && fs[i].class_ == Blocked {
      assert s.ports[i] in s.ports;
    }
  }

  predicate CodeBlocks(code: string) {
    code !in ["image_config", "network", "resource_limits", "ulimits", "read_only_rootfs"]
  }

  ghost predicate AxesBlocked(choices: Choices, codes: seq<string>) {
    || HasBlocked(OnAxis(choices, codes, Resources)) || HasBlocked(OnAxis(choices, codes, Scheduling))
    || HasBlocked(OnAxis(choices, codes, Flags))
  }

  lemma CodeBlocked(choices: Choices, code: string)
    ensures HasBlocked(CodeFindings(choices, code)) <==> CodeBlocks(code)
  {
    CodeExactly(choices, code);
    var fs := CodeFindings(choices, code);
    hide CodeFindings;
    if fs == [] {
      BlockedNone();
    } else {
      assert fs == [fs[0]];
      BlockedOne(fs[0]);
    }
    hide HasBlocked;
  }

  lemma {:induction false} CodesBlocked(choices: Choices, codes: seq<string>)
    ensures AxesBlocked(choices, codes) <==> exists code :: code in codes && CodeBlocks(code)
  {
    hide CodeBlocks, HasBlocked, CodeFindings, OnAxis;
    if codes == [] {
      NoneOnAxis(choices);
    } else {
      var most, code := codes[..|codes| - 1], codes[|codes| - 1];
      CodesBlocked(choices, most);
      assert most + [code] == codes;
      AxisPush(choices, most, code);
      CodeSupported(choices, code);
      CodeBlocked(choices, code);
      BlockedNone();
      var own := CodeFindings(choices, code);
      BlockedAppend(OnAxis(choices, most, Resources), own);
      BlockedAppend(OnAxis(choices, most, Scheduling), own);
      BlockedAppend(OnAxis(choices, most, Flags), own);
      hide AllSupported;
    }
  }

  lemma NoneOnAxis(choices: Choices)
    ensures !AxesBlocked(choices, [])
  {
  }

  /** The restart policy is one a cluster has no equal to. */
  predicate RestartBlocks(s: Service) {
    s.restart in ["no", "on-failure"]
  }

  lemma RestartBlocked(s: Service)
    ensures HasBlocked(RestartFindings(s)) <==> RestartBlocks(s)
  {
    if RestartBlocks(s) {
      assert RestartFindings(s)[0].class_ == Blocked;
    }
  }

  lemma InspectedBlocked(inp: Input, s: Service)
    ensures HasBlocked(InspectedAxes(inp, s)) <==>
            || RestartBlocks(s)
            || (s.name in inp.inspections && exists code :: code in inp.inspections[s.name].unsupported && CodeBlocks(code))
  {
    RestartBlocked(s);
    hide RestartFindings, CodeBlocks, RestartBlocks;
    if s.name !in inp.inspections {
      var unknown := [Finding(Probes, ChoiceRequired, "inspection_unavailable", ""), Finding(Resources, ChoiceRequired, "inspection_unavailable", ""),
                      Finding(Scheduling, ChoiceRequired, "inspection_unavailable", ""), Finding(Flags, ChoiceRequired, "inspection_unavailable", "")];
      assert !HasBlocked(unknown);
      BlockedAppend(unknown, RestartFindings(s));
    } else {
      InspectionBlocked(inp.choices, s, inp.inspections[s.name]);
      hide Inspected;
    }
  }

  lemma InspectionBlocked(choices: Choices, s: Service, i: Inspection)
    ensures HasBlocked(Inspected(choices, s, i)) <==> HasBlocked(RestartFindings(s)) || exists code :: code in i.unsupported && CodeBlocks(code)
  {
    hide HasBlocked, OnAxis, RestartFindings, OrElse, CodeBlocks, ProbeFinding;
    CodesBlocked(choices, i.unsupported);
    ProbeExactly(choices, i);
    var p := [ProbeFinding(choices, i)];
    BlockedOne(p[0]);
    var r, d, f := OnAxis(choices, i.unsupported, Resources), OnAxis(choices, i.unsupported, Scheduling), OnAxis(choices, i.unsupported, Flags);
    BlockedOrElse(r, Resources, "resources_supported");
    BlockedOrElse(d, Scheduling, "scheduling_supported");
    BlockedOrElse(f + RestartFindings(s), Flags, "flags_supported");
    BlockedAppend(f, RestartFindings(s));
    var r1, d1 := OrElse(r, Resources, "resources_supported"), OrElse(d, Scheduling, "scheduling_supported");
    BlockedAppend(p, r1);
    BlockedAppend(p + r1, d1);
    BlockedAppend(p + r1 + d1, OrElse(f + RestartFindings(s), Flags, "flags_supported"));
  }

  /**
   A service is blocked if and only if it has a volume that is a bind mount, shared or unverified, is on
   the host's network, has a port bound to a host address or a restart policy the cluster lacks, or its
   inspection reports a code the cluster has no place for.
   */
  lemma BlockedExactly(inp: Input, s: Service)
    ensures Worst(Findings(inp, s)) == Blocked <==>
            || (exists v :: v in s.volumes && VolumeBlocks(inp, s, v))
            || OnHost(inp, s)
            || (exists p :: p in s.ports && p.hostIP != "")
            || RestartBlocks(s)
            || (s.name in inp.inspections && exists code :: code in inp.inspections[s.name].unsupported && CodeBlocks(code))
  {
    WorstBlocked(Findings(inp, s));
    hide HasBlocked, StorageFindings, NetworkFindings, PortFindings, InspectedAxes, VolumeBlocks, OnHost, CodeBlocks, RestartBlocks, Worst;
    StorageBlocked(inp, s);
    NetworkBlocked(inp, s);
    PortsBlocked(inp, s);
    InspectedBlocked(inp, s);
    var a, n, p, i := StorageFindings(inp, s), NetworkFindings(inp, s), PortFindings(inp, s), InspectedAxes(inp, s);
    var sec := [Finding(Secrets, Supported, "secrets_supported", "")];
    BlockedOne(sec[0]);
    assert sec == [sec[0]];
    BlockedAppend(a, n);
    BlockedAppend(a + n, p);
    BlockedAppend(a + n + p, sec);
    BlockedAppend(a + n + p + sec, i);
  }
}
