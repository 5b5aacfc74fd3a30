/** The `addHost` API command: the hosts the agent manager discovered are
    projected into a list of host responses. */
module AddHost {

  import opened Wrappers
  import opened ApiCommon

  /** `getName()`: the key of the list response. */
  const Name := "addhostresponse"
  /** The key of every element of the list. */
  const HostResponseName := "host"
  /** The message of the error raised when discovery returned no list. */
  const FailureMessage := "Failed to add host"
  /** What separates two events in the `events` field. */
  const Separator := "; "

  /** The declared `@Parameter` fields of the command. */
  const Parameters: seq<Parameter> := [
    Parameter("clusterid", LongType, false, "the cluster ID for the host"),
    Parameter("clustername", StringType, false, "the cluster name for the host"),
    Parameter("password", StringType, true, "the password for the host"),
    Parameter("podid", LongType, false, "the Pod ID for the host"),
    Parameter("url", StringType, true, "the host URL"),
    Parameter("username", StringType, true, "the username for the host"),
    Parameter("zoneid", LongType, true, "the Zone ID for the host")
  ]

  /** `Host.Type`, reduced to the two kinds the projection tells apart; any
      other kind keeps the name its `toString()` gives. */
  datatype HostType = Routing | Storage | Other(typeName: string)

  /** The name of a `Status.Event` constant. Java enum constants are
      identifiers, so no name contains the separator's `;`. */
  type EventName = s: string | forall j :: 0 <= j < |s| ==> s[j] != ';'

  /** `host.getType().toString()`. */
  function TypeName(t: HostType): string
  {
    match t
    case Routing => "Routing"
    case Storage => "Storage"
    case Other(n) => n
  }

  /** The fields of a `HostVO` that the projection reads. */
  datatype Host = Host(
    id: Long, capabilities: Option<string>, clusterId: Option<Long>, cpus: Int,
    dataCenterId: Long, disconnectedOn: Option<Date>, hypervisorType: Option<string>,
    hostType: HostType, lastPinged: Long, managementServerId: Option<Long>,
    name: string, podId: Option<Long>, created: Option<Date>, removed: Option<Date>,
    speed: Long, status: string, privateIpAddress: Option<string>,
    version: Option<string>, totalMemory: Option<Long>, totalSize: Option<Long>)

  datatype GuestOsCategory = GuestOsCategory(id: Long, name: string)

  /** A user VM and the service offering it runs with. */
  datatype UserVm = UserVm(id: Long, serviceOfferingId: Long)

  /** A service offering's CPU count and per-CPU speed (MHz), both Java `int`. */
  datatype ServiceOffering = ServiceOffering(cpu: Int, speed: Int)

  /** Live statistics of a host, as the `double`s `HostStats` reports. */
  datatype HostStats = HostStats(cpuUtilization: real, averageLoad: real, networkReadKBs: real, networkWriteKBs: real)

  /** The read-only lookups of `ApiDBUtils` that the projection performs. A
      lookup that can answer `null` is a map (absent key: `null`); one that
      always answers is a total function. */
  datatype HostLookups = HostLookups(
    guestOsCategoryOf: map<Long, GuestOsCategory>,   // getHostGuestOSCategory(hostId)
    zoneNames: map<Long, string>,                     // findZoneById(id).getName()
    podNames: map<Long, string>,                      // findPodById(id).getName()
    clusterNames: map<Long, string>,                  // findClusterById(id).getName()
    userVmsOn: Long -> seq<UserVm>,                   // listUserVMsByHostId(hostId)
    serviceOfferings: map<Long, ServiceOffering>,     // findServiceOfferingById(id)
    hostStatsOf: map<Long, HostStats>,                // getHostStatistics(hostId)
    memoryUsageOf: Long -> Long,                      // getMemoryUsagebyHost(hostId)
    localStorageActiveOn: Host -> bool,               // isLocalStorageActiveOnHost(host)
    possibleEventsOf: string -> Option<seq<EventName>>)  // status.getPossibleEvents(), in iteration order

  /** The CPU allocated on a host: its VMs' `cpu * speed` summed in a Java
      `int`, over the host's capacity `cpus * speed`. The percentage
      formatting is not modelled. */
  datatype CpuAllocation = CpuAllocation(allocatedMhz: int, capacityMhz: int)

  /** A `HostResponse`; every field starts unset (`null`). */
  datatype HostResponse = HostResponse(
    id: Option<Long>, capabilities: Option<string>, clusterId: Option<Long>,
    clusterName: Option<string>, cpuNumber: Option<Int>, cpuSpeed: Option<Long>,
    cpuAllocated: Option<CpuAllocation>, cpuUsed: Option<real>, averageLoad: Option<Long>,
    networkKbsRead: Option<Long>, networkKbsWrite: Option<Long>,
    memoryTotal: Option<Long>, memoryAllocated: Option<Long>, memoryUsed: Option<Long>,
    diskSizeTotal: Option<Long>, diskSizeAllocated: Option<Long>,
    zoneId: Option<Long>, zoneName: Option<string>, podId: Option<Long>, podName: Option<string>,
    osCategoryId: Option<Long>, osCategoryName: Option<string>,
    disconnectedOn: Option<Date>, hypervisor: Option<string>, hostType: Option<HostType>,
    lastPinged: Option<Long>, managementServerId: Option<Long>, name: Option<string>,
    created: Option<Date>, removed: Option<Date>, state: Option<string>,
    ipAddress: Option<string>, version: Option<string>, localStorageActive: Option<bool>,
    events: Option<string>, responseName: Option<string>)

  /** A freshly constructed `HostResponse`. */
  const Unset := HostResponse(
    None, None, None, None, None, None, None, None, None, None, None, None, None, None,
    None, None, None, None, None, None, None, None, None, None, None, None, None, None,
    None, None, None, None, None, None, None, None)

  /** A `ListResponse` of host responses. */
  datatype ListResponse = ListResponse(responses: seq<HostResponse>, responseName: Option<string>)

  // ---------------------------------------------------------------------
  // Allocated CPU

  /** Every VM's service offering can be found. */
  predicate OfferingsKnown(vms: seq<UserVm>, offerings: map<Long, ServiceOffering>)
  {
    forall k :: 0 <= k < |vms| ==> vms[k].serviceOfferingId in offerings
  }

  /** The exact sum of `cpu * speed` over the offerings of the VMs. */
  function AllocatedCpu(vms: seq<UserVm>, offerings: map<Long, ServiceOffering>): int
    requires OfferingsKnown(vms, offerings)
  {
    if vms == [] then 0
    else
      var so := offerings[vms[|vms| - 1].serviceOfferingId];
      AllocatedCpu(vms[..|vms| - 1], offerings) + so.cpu * so.speed
  }

  /** The allocated CPU of a concatenation is the sum of the parts. */
  lemma {:induction false} AllocatedCpuConcat(a: seq<UserVm>, b: seq<UserVm>, offerings: map<Long, ServiceOffering>)
    requires OfferingsKnown(a, offerings) && OfferingsKnown(b, offerings)
    ensures OfferingsKnown(a + b, offerings)
    ensures AllocatedCpu(a + b, offerings) == AllocatedCpu(a, offerings) + AllocatedCpu(b, offerings)
  {
    if b != [] {
      var b' := b[..|b| - 1];
      assert (a + b)[..|a + b| - 1] == a + b';
      AllocatedCpuConcat(a, b', offerings);
    } else {
      assert a + b == a;
    }
  }

  /** No VM: nothing allocated. One more VM: exactly one more term. */
  lemma AllocatedCpuStep(vms: seq<UserVm>, vm: UserVm, offerings: map<Long, ServiceOffering>)
    requires OfferingsKnown(vms, offerings) && vm.serviceOfferingId in offerings
    ensures AllocatedCpu([], offerings) == 0
    ensures OfferingsKnown(vms + [vm], offerings)
    ensures AllocatedCpu(vms + [vm], offerings) ==
            AllocatedCpu(vms, offerings) + offerings[vm.serviceOfferingId].cpu * offerings[vm.serviceOfferingId].speed
  {
  }

  /** With offerings of non-negative size, the allocation is non-negative
      and at least the share of any single VM. */
  lemma {:induction false} AllocatedCpuBounds(vms: seq<UserVm>, offerings: map<Long, ServiceOffering>, k: int)
    requires OfferingsKnown(vms, offerings)
    requires forall id :: id in offerings ==> offerings[id].cpu >= 0 && offerings[id].speed >= 0
    requires 0 <= k < |vms|
    ensures AllocatedCpu(vms, offerings) >= offerings[vms[k].serviceOfferingId].cpu * offerings[vms[k].serviceOfferingId].speed >= 0
  {
    var last := offerings[vms[|vms| - 1].serviceOfferingId];
    assert last.cpu * last.speed >= 0;
    if k < |vms| - 1 {
      AllocatedCpuBounds(vms[..|vms| - 1], offerings, k);
    } else if |vms| > 1 {
      AllocatedCpuBounds(vms[..|vms| - 1], offerings, 0);
    }
  }

  /** The VM loop of `getResponse`: an `int` accumulator of `cpu * speed`. It
      holds the exact allocation reduced to 32 bits, which is the exact
      allocation whenever that fits in an `int`. */
  method AllocatedCpuOf(vms: seq<UserVm>, offerings: map<Long, ServiceOffering>) returns (cpu: int)
    requires OfferingsKnown(vms, offerings)
    ensures cpu == Wrap32(AllocatedCpu(vms, offerings))
    ensures MinInt <= AllocatedCpu(vms, offerings) <= MaxInt ==> cpu == AllocatedCpu(vms, offerings)
  {
    cpu := 0;
    for i := 0 to |vms|
      invariant cpu == Wrap32(AllocatedCpu(vms[..i], offerings))
    {
      var so := offerings[vms[i].serviceOfferingId];
      assert vms[..i + 1][..i] == vms[..i];
      WrapAdd(AllocatedCpu(vms[..i], offerings), so.cpu * so.speed);
      cpu := Wrap32(cpu + so.cpu * so.speed);
    }
    assert vms[..|vms|] == vms;
    if MinInt <= AllocatedCpu(vms, offerings) <= MaxInt {
      WrapInRange(AllocatedCpu(vms, offerings));
    }
  }

  // ---------------------------------------------------------------------
  // Possible events

  /** The events joined with the separator between neighbours. */
  function Joined(events: seq<string>): string
  {
    if |events| == 0 then ""
    else if |events| == 1 then events[0]
    else events[0] + Separator + Joined(events[1..])
  }

  /** Appending an event adds one separator and the event at the end. */
  lemma {:induction false} JoinedSnoc(events: seq<string>, e: string)
    requires |events| > 0
    ensures Joined(events + [e]) == Joined(events) + Separator + e
  {
    if |events| > 1 {
      JoinedSnoc(events[1..], e);
      assert (events + [e])[1..] == events[1..] + [e];
    } else {
      assert (events + [e])[1..] == [e];
    }
  }

  /** The `events` field: unset for a null or empty set, else the join. */
  function EventsField(possible: Option<seq<string>>): Option<string>
  {
    if possible.Some? && |possible.value| > 0 then Some(Joined(possible.value)) else None
  }

  /** The iterator loop of `getResponse` that builds `events`: after each event, a separator only
      when another event follows. */
  method JoinEvents(events: seq<string>) returns (s: string)
    ensures s == Joined(events)
  {
    s := "";
    var i := 0;
    while i < |events|
      invariant 0 <= i <= |events|
      invariant s == if i == 0 then "" else Joined(events[..i]) + (if i < |events| then Separator else "")
    {
      s := s + events[i];
      if i + 1 < |events| {
        s := s + Separator;
      }
      if i > 0 {
        JoinedSnoc(events[..i], events[i]);
      }
      assert events[..i + 1] == events[..i] + [events[i]];
      i := i + 1;
    }
    assert events[..|events|] == events;
  }

  /** Splits a string at every occurrence of the separator. */
  function Split(s: string): (r: seq<string>)
    ensures |r| > 0
    decreases |s|
  {
    if |s| == 0 then [""]
    else if |s| >= 2 && s[0] == ';' && s[1] == ' ' then [""] + Split(s[2..])
    else
      var rest := Split(s[1..]);
      [[s[0]] + rest[0]] + rest[1..]
  }

  lemma {:induction false} SplitPiece(a: string, t: string)
    requires forall j :: 0 <= j < |a| ==> a[j] != ';'
    ensures Split(a + Separator + t) == [a] + Split(t)
    ensures Split(a) == [a]
    decreases |a|
  {
    if |a| == 0 {
      assert (a + Separator + t)[2..] == t;
    } else {
      SplitPiece(a[1..], t);
      assert (a + Separator + t)[1..] == a[1..] + Separator + t;
      assert [a[0]] + a[1..] == a;
    }
  }

  /** Splitting the joined events at the separator gives the events back:
      there is a separator exactly between neighbours and none at the end. */
  lemma {:induction false} SplitJoined(events: seq<EventName>)
    requires |events| > 0
    ensures Split(Joined(events)) == events
  {
    if |events| == 1 {
      SplitPiece(events[0], "");
    } else {
      SplitJoined(events[1..]);
      SplitPiece(events[0], Joined(events[1..]));
      assert [events[0]] + events[1..] == events;
    }
  }

  /** The number of `;` characters in a string. */
  function Semicolons(s: string): nat
  {
    if s == [] then 0 else (if s[0] == ';' then 1 else 0) + Semicolons(s[1..])
  }

  lemma {:induction false} SemicolonsConcat(a: string, b: string)
    ensures Semicolons(a + b) == Semicolons(a) + Semicolons(b)
  {
    if a != [] {
      SemicolonsConcat(a[1..], b);
      assert (a + b)[1..] == a[1..] + b;
    } else {
      assert a + b == b;
    }
  }

  lemma {:induction false} SemicolonsNone(a: string)
    requires forall j :: 0 <= j < |a| ==> a[j] != ';'
    ensures Semicolons(a) == 0
  {
    if a != [] {
      SemicolonsNone(a[1..]);
    }
  }

  /** n events are joined with exactly n - 1 separators. */
  lemma {:induction false} JoinedSeparatorCount(events: seq<EventName>)
    requires |events| > 0
    ensures Semicolons(Joined(events)) == |events| - 1
  {
    SemicolonsNone(events[0]);
    if |events| > 1 {
      JoinedSeparatorCount(events[1..]);
      SemicolonsConcat(events[0], Separator);
      SemicolonsConcat(events[0] + Separator, Joined(events[1..]));
    }
  }

  /** The join begins with the first event and ends with the last: no
      leading and no trailing separator. */
  lemma {:induction false} JoinedEnds(events: seq<string>)
    requires |events| > 0
    ensures |Joined(events)| >= |events[0]| + |events[|events| - 1]| || |events| == 1
    ensures Joined(events)[..|events[0]|] == events[0]
    ensures Joined(events)[|Joined(events)| - |events[|events| - 1]|..] == events[|events| - 1]
  {
    if |events| > 1 {
      JoinedEnds(events[1..]);
    }
  }

  // ---------------------------------------------------------------------
  // One host

  /** Every lookup the projection dereferences without a null check
      succeeds: the zone and the pod whose names are read, each VM's service
      offering whose `cpu` and `speed` are read and, when the host has a
      cluster id, its cluster. */
  predicate Resolvable(h: Host, db: HostLookups)
  {
    && h.dataCenterId in db.zoneNames
    && h.podId.Some? && h.podId.value in db.podNames
    && OfferingsKnown(db.userVmsOn(h.id), db.serviceOfferings)
    && (h.clusterId.Some? ==> h.clusterId.value in db.clusterNames)
  }

  /** The response the body of the host loop of `getResponse` builds for one host. */
  function HostView(h: Host, db: HostLookups): HostResponse
    requires Resolvable(h, db)
  {
    var os := if h.id in db.guestOsCategoryOf then Some(db.guestOsCategoryOf[h.id]) else None;
    var stats := if h.id in db.hostStatsOf then Some(db.hostStatsOf[h.id]) else None;
    var routing := h.hostType == Routing;
    var storage := !routing && TypeName(h.hostType) == "Storage";
    Unset.(
      id := Some(h.id), capabilities := h.capabilities, clusterId := h.clusterId,
      cpuNumber := Some(h.cpus), zoneId := Some(h.dataCenterId),
      disconnectedOn := h.disconnectedOn, hypervisor := h.hypervisorType,
      hostType := Some(h.hostType), lastPinged := Some(h.lastPinged),
      managementServerId := h.managementServerId, name := Some(h.name), podId := h.podId,
      created := h.created, removed := h.removed, cpuSpeed := Some(h.speed),
      state := Some(h.status), ipAddress := h.privateIpAddress, version := h.version,
      osCategoryId := if os.Some? then Some(os.value.id) else None,
      osCategoryName := if os.Some? then Some(os.value.name) else None,
      zoneName := Some(db.zoneNames[h.dataCenterId]),
      podName := Some(db.podNames[h.podId.value]),
      cpuAllocated := Some(CpuAllocation(Wrap32(AllocatedCpu(db.userVmsOn(h.id), db.serviceOfferings)), h.cpus * h.speed)),
      cpuUsed := if stats.Some? then Some(stats.value.cpuUtilization) else None,
      averageLoad := if stats.Some? then Some(DoubleToLong(stats.value.averageLoad)) else None,
      networkKbsRead := if stats.Some? then Some(DoubleToLong(stats.value.networkReadKBs)) else None,
      networkKbsWrite := if stats.Some? then Some(DoubleToLong(stats.value.networkWriteKBs)) else None,
      memoryTotal := if routing then h.totalMemory else None,
      memoryAllocated := if routing then Some(db.memoryUsageOf(h.id)) else None,
      memoryUsed := if routing then Some(db.memoryUsageOf(h.id)) else None,
      diskSizeTotal := if storage then h.totalSize else None,
      diskSizeAllocated := if storage then Some(0) else None,
      clusterName := if h.clusterId.Some? then Some(db.clusterNames[h.clusterId.value]) else None,
      localStorageActive := Some(db.localStorageActiveOn(h)),
      events := EventsField(db.possibleEventsOf(h.status)),
      responseName := Some(HostResponseName))
  }

  /** The body of the host loop of `getResponse`: a fresh response filled in
      by successive setters. */
  method BuildHostResponse(h: Host, db: HostLookups) returns (r: HostResponse)
    requires Resolvable(h, db)
    ensures r == HostView(h, db)
  {
    r := Unset;
    r := r.(id := Some(h.id));
    r := r.(capabilities := h.capabilities);
    r := r.(clusterId := h.clusterId);
    r := r.(cpuNumber := Some(h.cpus));
    r := r.(zoneId := Some(h.dataCenterId));
    r := r.(disconnectedOn := h.disconnectedOn);
    r := r.(hypervisor := h.hypervisorType);
    r := r.(hostType := Some(h.hostType));
    r := r.(lastPinged := Some(h.lastPinged));
    r := r.(managementServerId := h.managementServerId);
    r := r.(name := Some(h.name));
    r := r.(podId := h.podId);
    r := r.(created := h.created);
    r := r.(removed := h.removed);
    r := r.(cpuSpeed := Some(h.speed));
    r := r.(state := Some(h.status));
    r := r.(ipAddress := h.privateIpAddress);
    r := r.(version := h.version);

    if h.id in db.guestOsCategoryOf {
      var category := db.guestOsCategoryOf[h.id];
      r := r.(osCategoryId := Some(category.id));
      r := r.(osCategoryName := Some(category.name));
    }
    r := r.(zoneName := Some(db.zoneNames[h.dataCenterId]));
    r := r.(podName := Some(db.podNames[h.podId.value]));

    var cpu := AllocatedCpuOf(db.userVmsOn(h.id), db.serviceOfferings);
    r := r.(cpuAllocated := Some(CpuAllocation(cpu, h.cpus * h.speed)));

    if h.id in db.hostStatsOf {
      var stats := db.hostStatsOf[h.id];
      r := r.(cpuUsed := Some(stats.cpuUtilization));
      r := r.(averageLoad := Some(DoubleToLong(stats.averageLoad)));
      r := r.(networkKbsRead := Some(DoubleToLong(stats.networkReadKBs)));
      r := r.(networkKbsWrite := Some(DoubleToLong(stats.networkWriteKBs)));
    }

    if h.hostType == Routing {
      r := r.(memoryTotal := h.totalMemory);
      var mem := db.memoryUsageOf(h.id);
      r := r.(memoryAllocated := Some(mem));
      r := r.(memoryUsed := Some(mem));
    } else if TypeName(h.hostType) == "Storage" {
      r := r.(diskSizeTotal := h.totalSize);
      r := r.(diskSizeAllocated := Some(0));
    }

    if h.clusterId.Some? {
      r := r.(clusterName := Some(db.clusterNames[h.clusterId.value]));
    }

    r := r.(localStorageActive := Some(db.localStorageActiveOn(h)));

    var possible := db.possibleEventsOf(h.status);
    if possible.Some? && |possible.value| > 0 {
      var events := JoinEvents(possible.value);
      r := r.(events := Some(events));
    }
    r := r.(responseName := Some(HostResponseName));
  }

  /** A routing host reports its total memory and the memory used on it as
      both allocated and used; it reports no disk size. */
  lemma RoutingHostFields(h: Host, db: HostLookups)
    requires Resolvable(h, db) && h.hostType == Routing
    ensures HostView(h, db).memoryTotal == h.totalMemory
    ensures HostView(h, db).memoryAllocated == HostView(h, db).memoryUsed == Some(db.memoryUsageOf(h.id))
    ensures HostView(h, db).diskSizeTotal.None? && HostView(h, db).diskSizeAllocated.None?
  {
  }

  /** A storage host reports its total size and zero allocated disk; it
      reports no memory. */
  lemma StorageHostFields(h: Host, db: HostLookups)
    requires Resolvable(h, db) && h.hostType == Storage
    ensures HostView(h, db).diskSizeTotal == h.totalSize
    ensures HostView(h, db).diskSizeAllocated == Some(0)
    ensures HostView(h, db).memoryTotal.None? && HostView(h, db).memoryAllocated.None? && HostView(h, db).memoryUsed.None?
  {
  }

  /** Any other kind of host reports neither memory nor disk size. */
  lemma OtherHostFields(h: Host, db: HostLookups)
    requires Resolvable(h, db) && h.hostType.Other? && h.hostType.typeName != "Storage"
    ensures HostView(h, db).memoryTotal.None? && HostView(h, db).memoryAllocated.None? && HostView(h, db).memoryUsed.None?
    ensures HostView(h, db).diskSizeTotal.None? && HostView(h, db).diskSizeAllocated.None?
  {
  }

  /** The four live-statistics fields are set exactly when statistics exist. */
  lemma StatsFields(h: Host, db: HostLookups)
    requires Resolvable(h, db)
    ensures HostView(h, db).cpuUsed.Some? <==> h.id in db.hostStatsOf
    ensures HostView(h, db).averageLoad.Some? <==> h.id in db.hostStatsOf
    ensures HostView(h, db).networkKbsRead.Some? <==> h.id in db.hostStatsOf
    ensures HostView(h, db).networkKbsWrite.Some? <==> h.id in db.hostStatsOf
  {
  }

  /** The cluster name is set exactly when the host has a cluster id, and is
      that cluster's name. */
  lemma ClusterNameField(h: Host, db: HostLookups)
    requires Resolvable(h, db)
    ensures HostView(h, db).clusterName.Some? <==> h.clusterId.Some?
    ensures h.clusterId.Some? ==> HostView(h, db).clusterName == Some(db.clusterNames[h.clusterId.value])
  {
  }

  /** `events` is unset exactly when the possible-events set is null or
      empty. */
  lemma EventsFieldPresence(h: Host, db: HostLookups)
    requires Resolvable(h, db)
    ensures var p := db.possibleEventsOf(h.status);
      HostView(h, db).events.None? <==> (p.None? || |p.value| == 0)
  {
  }

  /** When `events` is set, splitting it at the separator gives the events
      in iteration order. */
  lemma EventsFieldContents(h: Host, db: HostLookups)
    requires Resolvable(h, db)
    ensures var p := db.possibleEventsOf(h.status);
      HostView(h, db).events.Some? ==> p.Some? && Split(HostView(h, db).events.value) == p.value
  {
    var p := db.possibleEventsOf(h.status);
    if p.Some? && |p.value| > 0 {
      SplitJoined(p.value);
    }
  }

  /** The allocated CPU is the host's VMs' `cpu * speed` summed as a Java
      `int`, over the host's capacity `cpus * speed`. */
  lemma CpuAllocatedField(h: Host, db: HostLookups)
    requires Resolvable(h, db)
    ensures HostView(h, db).cpuAllocated.Some?
    ensures HostView(h, db).cpuAllocated.value.capacityMhz == h.cpus * h.speed
    ensures HostView(h, db).cpuAllocated.value.allocatedMhz == Wrap32(AllocatedCpu(db.userVmsOn(h.id), db.serviceOfferings))
    ensures db.userVmsOn(h.id) == [] ==> HostView(h, db).cpuAllocated.value.allocatedMhz == 0
  {
  }

  /** The identity fields are copied from the host, and every element is
      named "host". */
  lemma CopiedFields(h: Host, db: HostLookups)
    requires Resolvable(h, db)
    ensures var r := HostView(h, db);
      r.id == Some(h.id) && r.name == Some(h.name) && r.cpuNumber == Some(h.cpus) &&
      r.cpuSpeed == Some(h.speed) && r.zoneId == Some(h.dataCenterId) && r.podId == h.podId &&
      r.clusterId == h.clusterId && r.state == Some(h.status) && r.hostType == Some(h.hostType) &&
      r.zoneName == Some(db.zoneNames[h.dataCenterId]) && r.podName == Some(db.podNames[h.podId.value]) &&
      r.responseName == Some(HostResponseName)
  {
  }

  // ---------------------------------------------------------------------
  // The list

  predicate AllResolvable(hosts: seq<Host>, db: HostLookups)
  {
    forall k :: 0 <= k < |hosts| ==> Resolvable(hosts[k], db)
  }

  /** What `getResponse` returns for the discovered hosts (`None`: `null`). */
  function AddHostResult(hosts: Option<seq<Host>>, db: HostLookups): Result<ListResponse, ApiError>
    requires hosts.Some? ==> AllResolvable(hosts.value, db)
  {
    match hosts
    case None => Failure(ApiError(InternalError, FailureMessage))
    case Some(hs) =>
      Success(ListResponse(seq(|hs|, k requires 0 <= k < |hs| => HostView(hs[k], db)), Some(Name)))
  }

  /** `getResponse`: the host loop, or the error for a null list. */
  method GetResponse(hosts: Option<seq<Host>>, db: HostLookups) returns (r: Result<ListResponse, ApiError>)
    requires hosts.Some? ==> AllResolvable(hosts.value, db)
    ensures r == AddHostResult(hosts, db)
  {
    if hosts.None? {
      return Failure(ApiError(InternalError, FailureMessage));
    }
    var hs := hosts.value;
    var responses: seq<HostResponse> := [];
    for i := 0 to |hs|
      invariant |responses| == i
      invariant forall k :: 0 <= k < i ==> responses[k] == HostView(hs[k], db)
    {
      var response := BuildHostResponse(hs[i], db);
      responses := responses + [response];
    }
    assert responses == AddHostResult(hosts, db).value.responses;
    r := Success(ListResponse(responses, Some(Name)));
  }

  /** A null host list is an error and produces no response. */
  lemma NullHostListFails(db: HostLookups)
    ensures AddHostResult(None, db) == Failure(ApiError(InternalError, "Failed to add host"))
  {
  }

  /** A list gives one response per host, in the hosts' order, each with
      its host's id, and the list is named "addhostresponse". */
  lemma ResponsesFollowHosts(hs: seq<Host>, db: HostLookups)
    requires AllResolvable(hs, db)
    ensures AddHostResult(Some(hs), db).Success?
    ensures var l := AddHostResult(Some(hs), db).value;
      |l.responses| == |hs| && l.responseName == Some("addhostresponse") &&
      forall k :: 0 <= k < |hs| ==> l.responses[k] == HostView(hs[k], db) && l.responses[k].id == Some(hs[k].id)
  {
  }

  /** The required parameters are password, url, username and zoneid, and
      no parameter is declared twice. */
  lemma RequiredParameters()
    ensures RequiredNames(Parameters) == {"password", "url", "username", "zoneid"}
    ensures NamesUnique(Parameters)
  {
    var req := RequiredNames(Parameters);
    assert Parameters[2].name in req && Parameters[4].name in req;
    assert Parameters[5].name in req && Parameters[6].name in req;
  }
}
