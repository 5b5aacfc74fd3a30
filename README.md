# Response projection and audit attribution of three CloudStack API commands

This project models, in Dafny, the request-handling code of three commands of
the CloudStack management server API:

- `addHost` (`AddHostCmd`): the hosts the agent manager discovered are turned
  into a list of `HostResponse`s. A null list is an error. Otherwise there is
  one response per host, in order. Each response copies the host's fields and
  adds the looked-up zone, pod, cluster and guest-OS category names. It also
  carries the CPU allocated by the host's VMs, accumulated in a Java `int`,
  and the live statistics when the host has them. Memory fields are set for
  routing hosts and disk fields for storage hosts. The host's possible status
  events are joined with `"; "`.
- `createSnapshotInternal` (`CreateSnapshotInternalCmd`), an asynchronous
  command. It is attributed to the owner of the volume, or to the SYSTEM
  account when the volume is unknown. Its audit event is `SNAPSHOT_CREATE`
  with the description `creating snapshot for volume: <id>`. The created
  snapshot becomes a `SnapshotResponse`.
- `deletePortForwardingService` (`DeletePortForwardingServiceCmd`), an
  asynchronous command. It is attributed to the owner of the port forwarding
  service (a security group), or to SYSTEM. A null outcome of the deletion is
  an error. A Boolean outcome becomes the `success` flag of a
  `SuccessResponse`.

Layout, one module per file:

- `wrappers.dfy` (`Wrappers`): `Option` for Java `null` and `Result` for a
  thrown `ServerApiException`.
- `api_common.dfy` (`ApiCommon`): Java `long`, the 32-bit wrap of `int`
  arithmetic, the `(long)` cast of a `double`, `ApiError`, the event types,
  `ACCOUNT_ID_SYSTEM` and the `@Parameter` descriptors.
- `decimal.dfy` (`Decimal`): how Java prints a `Long` inside a string, and
  the parse that reads it back.
- `add_host_cmd.dfy` (`AddHost`), `create_snapshot_internal_cmd.dfy`
  (`CreateSnapshotInternal`), `delete_port_forwarding_service_cmd.dfy`
  (`DeletePortForwardingService`): the three commands.

The three loops of `AddHostCmd.getResponse` stay loops. Each is a method
proved equal to a specification function: `GetResponse` (the host loop)
against `AddHostResult`, `AllocatedCpuOf` (the VM loop) against
`AllocatedCpu`, and `JoinEvents` (the iterator loop) against `Joined`. The
lemmas state the promised properties about those functions. A response object
filled in by setters is a datatype with `Option` fields. Each setter becomes
one field update inside a method.

The `ApiDBUtils` lookups are parameters. A lookup that can answer `null` is a
`map`, where an absent key means `null`. A lookup that always answers is a
total function. The code dereferences some lookup results without a null
check. Each of those is a precondition (`Resolvable`) rather than a guarded
branch: the zone, pod, service offerings and cluster of a host; the domain of
a snapshot's account, the snapshot's volume and its type ordinal.

Constants from files that are not part of this model:

- `Account.ACCOUNT_ID_SYSTEM` is 1, as CloudStack's `Account` declares it.
- The two `EventTypes` constants are the enumeration `EventType`, not their
  strings.
- `BaseCmd.INTERNAL_ERROR` is the error code `InternalError`.
- `SnapshotType.values()` is a parameter: the constant names in declaration
  order.

## Model

| member | source | states |
|---|---|---|
| AddHost.GetResponse | server/src/com/cloud/api/commands/AddHostCmd.java:120-221 | the loop over the hosts returns exactly `AddHostResult`: the "Failed to add host" error for a null list, else one `HostView` per host in order, in a list named "addhostresponse" |
| AddHost.NullHostListFails | server/src/com/cloud/api/commands/AddHostCmd.java:214-216 | a null host list gives an internal error with message "Failed to add host" and no responses |
| AddHost.ResponsesFollowHosts | server/src/com/cloud/api/commands/AddHostCmd.java:123-220 | a non-null list gives as many responses as hosts, response k is host k's view and carries host k's id, and the list is named "addhostresponse" |
| AddHost.BuildHostResponse | server/src/com/cloud/api/commands/AddHostCmd.java:127-211 | the sequence of setters for one host produces exactly `HostView` of that host |
| AddHost.CopiedFields | server/src/com/cloud/api/commands/AddHostCmd.java:127-153 | id, name, CPU count and speed, zone, pod, cluster id, state and type are copied from the host; zone and pod names come from the lookups; the response is named "host" |
| AddHost.AllocatedCpuOf | server/src/com/cloud/api/commands/AddHostCmd.java:156-163 | the `int` accumulator ends as the exact sum of `cpu * speed` over the host's VMs reduced to 32 bits, and equals the exact sum whenever that fits in an `int` |
| AddHost.AllocatedCpuStep | server/src/com/cloud/api/commands/AddHostCmd.java:156-163 | the allocation is 0 for no VMs and grows by exactly one VM's `cpu * speed` per VM |
| AddHost.AllocatedCpuConcat | server/src/com/cloud/api/commands/AddHostCmd.java:159-163 | the allocation of two lists of VMs together is the sum of their allocations |
| AddHost.AllocatedCpuBounds | server/src/com/cloud/api/commands/AddHostCmd.java:159-163 | with non-negative offerings the allocation is at least any single VM's `cpu * speed`, which is non-negative |
| AddHost.CpuAllocatedField | server/src/com/cloud/api/commands/AddHostCmd.java:155-165 | the CPU-allocated field is always set, with the wrapped VM sum as numerator (0 without VMs) and `cpus * speed` as denominator |
| AddHost.StatsFields | server/src/com/cloud/api/commands/AddHostCmd.java:168-177 | CPU used, average load and network read/write are each set exactly when the host has statistics |
| AddHost.RoutingHostFields | server/src/com/cloud/api/commands/AddHostCmd.java:179-185 | a routing host gets its total memory and the host's memory usage as both allocated and used memory, and no disk fields |
| AddHost.StorageHostFields | server/src/com/cloud/api/commands/AddHostCmd.java:186-189 | a storage host gets its total size and 0 allocated disk, and no memory fields |
| AddHost.OtherHostFields | server/src/com/cloud/api/commands/AddHostCmd.java:179-189 | a host of any other type gets neither memory nor disk fields |
| AddHost.ClusterNameField | server/src/com/cloud/api/commands/AddHostCmd.java:191-194 | the cluster name is set exactly when the host has a cluster id, and is that cluster's name |
| AddHost.EventsFieldPresence | server/src/com/cloud/api/commands/AddHostCmd.java:198-199 | for every host, `events` is unset exactly when the possible-events set is null or empty |
| AddHost.EventsFieldContents | server/src/com/cloud/api/commands/AddHostCmd.java:198-210 | when `events` is set, splitting it at "; " gives the event names in iteration order (event names are enum constants, a type that excludes ';') |
| AddHost.JoinEvents | server/src/com/cloud/api/commands/AddHostCmd.java:200-208 | the iterator loop, which appends "; " only when another event follows, builds exactly `Joined` of the events |
| AddHost.JoinedSnoc | server/src/com/cloud/api/commands/AddHostCmd.java:202-207 | one more event adds exactly one separator and that event at the end |
| AddHost.SplitJoined | server/src/com/cloud/api/commands/AddHostCmd.java:200-209 | for a non-empty list of event names (which contain no ';'), splitting the join at "; " gives the list back |
| AddHost.JoinedSeparatorCount | server/src/com/cloud/api/commands/AddHostCmd.java:202-207 | n event names (which contain no ';') are joined with exactly n - 1 separators |
| AddHost.JoinedEnds | server/src/com/cloud/api/commands/AddHostCmd.java:202-207 | the join starts with the first event and ends with the last: no leading and no trailing separator |
| AddHost.RequiredParameters | server/src/com/cloud/api/commands/AddHostCmd.java:56-75 | password, url, username and zoneid are the required parameters, and the parameter names are distinct |
| ApiCommon.Wrap32 | server/src/com/cloud/api/commands/AddHostCmd.java:162 | Java `int` arithmetic: the result is in the 32-bit signed range and congruent to the exact value modulo 2^32 |
| ApiCommon.WrapAdd | server/src/com/cloud/api/commands/AddHostCmd.java:156-162 | adding to a wrapped accumulator and wrapping again equals wrapping the exact sum |
| ApiCommon.WrapInRange | server/src/com/cloud/api/commands/AddHostCmd.java:156-162 | a value that fits in an `int` is unchanged by the wrap |
| ApiCommon.DoubleToLong | server/src/com/cloud/api/commands/AddHostCmd.java:174-176 | the `(long)` cast of a statistic rounds toward zero (never moves away from zero, off by less than 1) and saturates at the ends of the `long` range |
| Decimal.ParseLongToString | server/src/com/cloud/api/commands/CreateSnapshotInternalCmd.java:92 | parsing the decimal rendering of any integer gives that integer back |
| Decimal.LongToStringInjective | server/src/com/cloud/api/commands/CreateSnapshotInternalCmd.java:92 | distinct integers render to distinct strings |
| CreateSnapshotInternal.AccountId | server/src/com/cloud/api/commands/CreateSnapshotInternalCmd.java:75-83 | the volume's owner when the volume id resolves, otherwise the SYSTEM account; total, never fails |
| CreateSnapshotInternal.AccountIdReadsOnlyVolume | server/src/com/cloud/api/commands/CreateSnapshotInternalCmd.java:76-82 | the attribution depends only on the referenced volume's entry, not on the rest of the table |
| CreateSnapshotInternal.EventDescription | server/src/com/cloud/api/commands/CreateSnapshotInternalCmd.java:90-93 | the description is "creating snapshot for volume: " followed by text that parses back to the volume id |
| CreateSnapshotInternal.EventDescriptionIdentifiesVolume | server/src/com/cloud/api/commands/CreateSnapshotInternalCmd.java:90-93 | two commands have the same description exactly when they name the same volume |
| CreateSnapshotInternal.GetResponse | server/src/com/cloud/api/commands/CreateSnapshotInternalCmd.java:95-120 | id, volume id, name and creation date are copied; account name, domain id and domain name are set exactly when the account is found, with its values; the type is the constant name at the stored ordinal; the volume's name and type are copied; the response is named "createsnapshotresponse" |
| CreateSnapshotInternal.RequiredParameters | server/src/com/cloud/api/commands/CreateSnapshotInternalCmd.java:43-47 | volumeid is the only required parameter; policyid is optional |
| DeletePortForwardingService.AccountId | server/src/com/cloud/api/commands/DeletePortForwardingServiceCmd.java:65-73 | the security group's owner when the id resolves, otherwise the SYSTEM account |
| DeletePortForwardingService.EventDescription | server/src/com/cloud/api/commands/DeletePortForwardingServiceCmd.java:80-83 | the description is "deleting port forwarding service: " followed by text that parses back to the id |
| DeletePortForwardingService.EventDescriptionIdentifiesService | server/src/com/cloud/api/commands/DeletePortForwardingServiceCmd.java:80-83 | two commands have the same description exactly when they name the same service |
| DeletePortForwardingService.GetResponse | server/src/com/cloud/api/commands/DeletePortForwardingServiceCmd.java:85-98 | the result is an error exactly when the outcome is null, with message "Failed to delete port forwarding service"; otherwise `success` is the outcome, true or false, and the response is named "deleteportforwardingserviceresponse" |
| DeletePortForwardingService.RequiredParameters | server/src/com/cloud/api/commands/DeletePortForwardingServiceCmd.java:44-45 | id is the only parameter and it is required |

The event types are constants (`EventTypeOf`), and so are the response names
(`Name`, which `getName` returns). Both are the same for every request and
do not depend on the command's result.

## Left out

- Percentage formatting: `cpuAllocated` and `cpuUsed` are `DecimalFormat("#.##")` renderings of `float` values, and floating point is not modelled. The model keeps the integer numerator and denominator of the allocation, and the utilisation as a real number. There is no division-by-zero guard in the code, so the model adds none.
- `double` statistics are modelled as reals, so NaN and infinities are not represented. The host capacity `cpus * speed` is a `long` product, taken as exact.
- `new Date(host.getLastPinged())`: the response keeps the raw value.
- The `ApiDBUtils` lookups, the user-VM and offering tables, `Status.getPossibleEvents()` and `isLocalStorageActiveOnHost` are external. They are parameters. A lookup that can answer `null` is a map whose absent key is that `null`; `Status.getPossibleEvents()` is a function whose `null` answer is `None`; the memory-usage, user-VM-list and local-storage lookups are total functions that always answer.
- The backend operations (`discoverHosts`, `createSnapshotInternal`, `deleteSecurityGroup`) are external and not modelled. Only their results enter the model.
- Parameter binding by reflection (`@Parameter`, `@Implementation`) is not modelled. The declared descriptors are constants. A bound command is a datatype whose required fields are not optional.
- `BaseCmd`/`BaseAsyncCmd` dispatch, the async job queue, logging and the transport of `ServerApiException` are not modelled.
- Host types: `Host.Type` is reduced to `Routing`, `Storage` and `Other(name)`. The storage test compares the type's name with "Storage", as the code does with `toString()`.
- A `ClassCastException` from `getResponseObject()`, and a null snapshot, are not modelled: the response object is taken to have the expected type.
- The `NullPointerException`s that `getResponse` of `addHost` raises when a host's CPU count or speed is null (unboxed for the capacity product), its type is null (`getType().toString()`) or its status is null (`getStatus().getPossibleEvents()`) are not modelled: `Host.cpus`, `Host.speed`, `Host.hostType` and `Host.status` are never null in the model.
