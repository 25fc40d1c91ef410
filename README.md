# mydocker: cgroup memory subsystem and container networking, in Dafny

This project models two parts of the mydocker container runtime and proves
properties of them.

**The cgroup resource code** is in `cgroups/subsystems`.
- `FindCgroupMountpoint` finds where the hierarchy of a subsystem is mounted. It reads the
  lines of `/proc/self/mountinfo`.
- `GetCgroupPath` resolves a cgroup's directory under that mount point, and creates it if
  asked.
- The memory subsystem writes `memory.limit_in_bytes` and `tasks`, and removes a cgroup's
  directory tree.
- `ResourceConfig` carries the three limits.
- `SubsystemsIns` is the fixed chain of subsystems.

The host filesystem is a map from path to node (`Fs.Tree`). Every node in it has a parent
directory. `os.Stat`, `os.Mkdir`, `ioutil.WriteFile` and `os.RemoveAll` are functions over
that map. The first three return Linux error numbers; `RemoveAll` always succeeds. The mount table is an input, and `None` means the
file could not be opened. A class `Host` holds the filesystem, which the cgroup methods
update in place.

**The network package** is `network/network.go`. It holds:
- the package-level registries of drivers and networks;
- the network records kept as files under `/var/run/mydocker/network/network/`;
- the operations `dump`, `remove`, `load`, `Init`, `CreateNetwork`, `DeleteNetwork`,
  `Connect`, `configEndpointIpAddressAndRoute`, `configPortMapping` and `Disconnect`.

Three collaborators have code that is not part of this model: the IP allocator (IPAM), the
network drivers, and the netlink/iptables system calls. Each call to one of them is appended
to a log (`Network.Call`). Its answer is a parameter of the operation (`Reply`/`Outcome`), so
each property holds for every answer a collaborator can give. A Go run-time panic, such as a
nil dereference or a call through a missing driver, is the status
`Panic(cause)`. It is not treated as an ordinary error.

Most operations of the network package have two forms:
- A pure specification function over `State` (for example `CreateNetworkSpec`).
- A method of `NetworkManager`, whose fields the operations update. Its `ensures` clause
  says that the new state and the returned status are what the specification function
  gives.

There are two exceptions:
- `load` changes no package state. It is only the function `Load`, which `Init`'s walk loop
  calls for each path.
- `Disconnect` does nothing but return success. It is only a method, with no
  specification function.

The lemmas then state what each operation promises.

The persisted record is written in a length-prefixed text encoding that stands in for JSON
(module `RecordCodec`). It has the two properties the package relies on:
- A record reads back as itself.
- A record cut short anywhere does not read back at all.

That is why a record longer than `load`'s 2000-byte buffer never loads.

Behaviour the model follows as the code is written:
- A subsystem whose hierarchy is not mounted is not an error. Its mount point is `""`, and
  the cgroup path is used as it stands (`ResolveUnmounted`).
- `Apply` and `Remove` on a cgroup that does not exist are errors. Only `Set` creates the
  cgroup.
- `Init` registers a network even when its record fails to load. When the record file is
  missing, empty or not valid JSON, the entry then has only a name and no address range, so
  deleting it later panics (`InitThenDeleteUnreadable`).
- `CreateNetwork` and `DeleteNetwork` never update the in-memory registry. A network that
  was just created is unknown until the next `Init` (`CreateThenInit`, `CreateThenDelete`).
  A deleted network stays registered.
- `Connect` never releases an address it has allocated, even when a later step fails
  (`ConnectNeverReleases`).
- `CreateNetwork` ignores the error from `net.ParseCIDR`, so a subnet that does not parse
  panics once the allocator grants an address.
- `ioutil.WriteFile` truncates, so `tasks` ends up holding only the last pid written.

## Model

| member | source | states |
|---|---|---|
| CgroupUtils.FindCgroupMountpoint | cgroups/subsystems/utils.go:14-36 | "" when the mount table cannot be opened or no line matches; otherwise the fifth field of the first line whose options include the subsystem |
| CgroupUtils.LaterLinesIgnored | cgroups/subsystems/utils.go:22-30 | the scan returns at the first matching line: appending any lines after it does not change the mount point |
| CgroupUtils.MatchIsWholeOption | cgroups/subsystems/utils.go:24-28 | a line matches exactly when the subsystem is one whole comma-separated option of its last space-separated field (both directions) |
| CgroupUtils.LineIsItsFields | cgroups/subsystems/utils.go:24-25 | every line is its space-free fields joined by spaces, and its last field is its comma-free options joined by ','; so the whole-option match holds for every line |
| CgroupUtils.CpuDoesNotMatchCpuset | cgroups/subsystems/utils.go:25-26 | options are compared whole: a "rw,cpuset" line mounts "cpuset" but not "cpu" |
| CgroupUtils.Host.GetCgroupPath | cgroups/subsystems/utils.go:42-55 | the returned path or error and the new filesystem are those of ResolveCgroupPath; the tree stays well formed |
| CgroupUtils.ResolveExisting | cgroups/subsystems/utils.go:44-51 | an existing cgroup directory is returned as the mount point joined with the cgroup path, and nothing changes, whatever autoCreate says |
| CgroupUtils.ResolveCreates | cgroups/subsystems/utils.go:44-54 | with autoCreate, a missing directory is created (only that one) exactly when its parent is a directory; otherwise nothing changes, and the error is "cgroup path error" with ENOTDIR when a regular file lies on the path (the stat error is not "does not exist", so Mkdir is never tried), else "error create cgroup" with ENOENT |
| CgroupUtils.ResolveBelowFile | cgroups/subsystems/utils.go:44-54 | resolving "/a/b" with autoCreate when "/a" is a regular file fails with "cgroup path error" ENOTDIR and changes nothing |
| CgroupUtils.ResolveWithoutCreate | cgroups/subsystems/utils.go:44-54 | without autoCreate nothing is created, and the call succeeds exactly when the entry exists |
| CgroupUtils.ResolveIdempotent | cgroups/subsystems/utils.go:42-55 | resolving a second time after a success returns the same path and leaves the filesystem as the first call left it |
| CgroupUtils.ResolveUnmounted | cgroups/subsystems/utils.go:43-51 | with no mounted hierarchy the resolved path is the cgroup path itself |
| CgroupUtils.ResolveKeepsTree | cgroups/subsystems/utils.go:44-50 | resolution keeps every present path's parent directory present |
| Memory.MemorySubSystem.Name | cgroups/subsystems/memory.go:51-53 | the name is "memory" |
| Memory.MemorySubSystem.Set | cgroups/subsystems/memory.go:14-28 | the error and the new filesystem are those of SetSpec: resolve with creation, then write a non-empty limit |
| Memory.MemorySubSystem.Apply | cgroups/subsystems/memory.go:39-48 | the error and the new filesystem are those of ApplySpec: resolve without creation, then write the pid's decimal text to tasks |
| Memory.MemorySubSystem.Remove | cgroups/subsystems/memory.go:30-36 | the error and the new filesystem are those of RemoveSpec: resolve without creation, then delete the directory tree |
| Memory.SetWritesLimit | cgroups/subsystems/memory.go:16-23 | after a successful Set with a non-empty limit, memory.limit_in_bytes in the cgroup holds exactly the limit; the cgroup directory is kept as it was or newly made, and nothing else changed |
| Memory.SetSucceeds | cgroups/subsystems/memory.go:16-26 | the cgroup resolves exactly when it exists or its parent is a directory; Set succeeds exactly when it resolves and, for a non-empty limit, the cgroup is a directory and the limit file is not one (both directions) |
| Memory.SetEmptyLimitWritesNothing | cgroups/subsystems/memory.go:16-23 | with an empty limit Set reports only the resolution result and at most creates the cgroup directory |
| Memory.SetResolutionFailure | cgroups/subsystems/memory.go:24-26 | a resolution error is returned unchanged and the filesystem is untouched |
| Memory.ApplyNeverCreates | cgroups/subsystems/memory.go:40 | Apply creates no directory: the directories before and after are the same |
| Memory.ApplyMissingCgroup | cgroups/subsystems/memory.go:45-47 | Apply on a missing cgroup fails with "get cgroup <path> error" and writes nothing |
| Memory.ApplySucceeds | cgroups/subsystems/memory.go:40-47 | Apply succeeds exactly when the cgroup exists as a directory and its tasks file is not a directory (both directions) |
| Memory.ApplyWritesPid | cgroups/subsystems/memory.go:40-44 | after a successful Apply the tasks file holds exactly the pid's text, which parses back to the pid, and nothing else changed |
| Memory.RemoveDeletesSubtree | cgroups/subsystems/memory.go:30-36 | Remove succeeds exactly when the cgroup exists; it then deletes the directory and everything below it and nothing else; otherwise it changes nothing |
| Subsystems.SubsystemsIns | cgroups/subsystems/subsystem.go:19-25 | the chain holds cpuset, memory and cpu, in that order, each once |
| NetworkRecords.IPText | network/network.go:287 | the dotted text of an address holds no space and no ':' |
| NetworkRecords.InterfaceAddress | network/network.go:249-250 | the interface address is the network's range with the endpoint's IP; it exists exactly when the range does |
| RecordCodec.DecodeEncode | network/network.go:79-117 | a record written by dump decodes back to the same record |
| RecordCodec.DecodeRejectsTruncated | network/network.go:111-117 | any proper prefix of an encoded record does not decode |
| Network.Dumped | network/network.go:70-85 | the record file holds the encoded record; no other file changes |
| Network.Removed | network/network.go:93-103 | the record file is gone, a missing file is no error, and no other file changes |
| Network.Load | network/network.go:105-123 | a missing or empty file, or a record that is not valid JSON, is an error and leaves the target as it was; success exactly when the first 2000 characters decode |
| Network.LoadAfterDump | network/network.go:105-123 | a dumped record that fits the buffer loads back as itself, whatever it is loaded into |
| Network.LoadOversized | network/network.go:111-117 | a dumped record longer than 2000 characters fails to load and leaves the target unchanged |
| Network.RemovedIdempotent | network/network.go:93-103 | removing twice is removing once; dump then remove leaves the other files as remove alone does |
| Network.InitEffects | network/network.go:125-157 | the bridge driver is registered under its name even when the record directory cannot be examined; that stat error is returned with the registry unchanged; otherwise the registry is the walk's loads; files and calls never change |
| Network.InitKeys | network/network.go:137-152 | after Init the registry holds exactly the earlier entries plus the base names of the walked paths that do not end in '/' |
| Network.InitEntry | network/network.go:141-150 | the registry entry for a name is what loading the last walked path with that name produced |
| Network.InitThenDeleteUnreadable | network/network.go:142-150 | a record file that is missing, empty or not valid JSON is still registered, with only its name, and deleting it panics on the nil range before any collaborator is called |
| Network.CreateThenInit | network/network.go:160-174 | CreateNetwork leaves the registry alone, and the next Init that walks the record loads the network the driver returned |
| Network.CreateNetworkEffects | network/network.go:160-174 | the allocator is called first; success exactly when allocation, parsing, driver lookup and driver creation all succeed, and then the driver got the subnet with the gateway in its address and the record is dumped; on failure no file changes; the registry never changes |
| Network.CreateNetworkStopsAtFailure | network/network.go:161-171 | each failure stops the flow: a failed allocation, an unparsed subnet or a missing driver leaves only the allocation call; a failed driver create leaves allocation and create, with the driver's error and no dump |
| Network.CreateThenDelete | network/network.go:192-196 | deleting a network right after creating it reports "no such network" |
| Network.DeleteNetworkEffects | network/network.go:192-207 | an unknown name is an error with no effect; a nil range panics with no effect; success exactly when release, driver lookup and driver delete succeed, and only then is the record removed; the registry entry stays |
| Network.DeleteNetworkStopsAtFailure | network/network.go:198-206 | a failed release returns "Error Remove Network gateway ip" with only the release call; a missing driver panics after the release; a failed driver delete returns "Error Remove Network DriverError" with release and delete called and the record file kept |
| Network.ConfigureEffects | network/network.go:241-277 | the peer is looked up first and a failed lookup stops there; success exactly when lookup and configuration pass and the range exists; the peer gets the endpoint IP under the network mask with the range IP as gateway |
| Network.IptablesArguments | network/network.go:286-288 | the formatted command splits back into exactly the DNAT rule's words when neither port holds a space |
| Network.PortRuleWellFormed | network/network.go:281-285 | a mapping yields one iptables run exactly when it holds one ':', and none otherwise |
| Network.PortRuleOfMapping | network/network.go:280-288 | "host:container" yields one iptables run with the DNAT rule to the endpoint IP and container port |
| Network.PortMappingCallsAppend | network/network.go:280-295 | rules are installed in list order: the runs for a concatenation are the runs of each part in turn |
| Network.PortMappingCallsShape | network/network.go:280-295 | only iptables runs, at most one per mapping, exactly one per mapping when every mapping holds one ':' |
| Network.ConnectEffects | network/network.go:299-303 | an unknown network is an error with no effect; Connect never changes the drivers, the registry or the files, and only appends to the log |
| Network.ConnectNeverReleases | network/network.go:305-327 | for a known network the allocator is called first, and no release follows whatever fails later |
| Network.ConnectStopsAtFailure | network/network.go:306-327 | each failure stops the flow with exactly the calls made up to the failing one: allocation; driver lookup or connect; peer lookup; address setup; and no iptables rule is installed on any failure |
| Network.ConnectSucceeds | network/network.go:299-328 | success exactly when every step does, and then the calls are allocate, driver connect with endpoint "<container>-<network>", peer lookup, address setup, and one iptables run per well-formed mapping |
| Network.NetworkManager.constructor | network/network.go:21-25 | no drivers and no networks registered at start |
| Network.NetworkManager.Dump | network/network.go:60-91 | the new state is the old one with the record file written |
| Network.NetworkManager.Remove | network/network.go:93-103 | the new state is the old one with the record file removed |
| Network.NetworkManager.Init | network/network.go:125-157 | the new state and status are those of InitSpec; the walk loop keeps the fold of the remaining entries equal to the whole fold |
| Network.NetworkManager.CreateNetwork | network/network.go:160-174 | the new state and status are those of CreateNetworkSpec |
| Network.NetworkManager.DeleteNetwork | network/network.go:192-207 | the new state and status are those of DeleteNetworkSpec |
| Network.NetworkManager.ConfigureEndpoint | network/network.go:241-277 | the new state and status are those of ConfigureSpec |
| Network.NetworkManager.ConfigPortMapping | network/network.go:279-297 | always succeeds; the log grows by exactly the iptables runs of the mappings in order, and nothing else changes |
| Network.NetworkManager.Connect | network/network.go:299-328 | the new state and status are those of ConnectSpec |
| Network.NetworkManager.Disconnect | network/network.go:330-332 | always succeeds and changes nothing |

## Left out

- The cpuset and cpu subsystems: their code is not part of this model. They appear in `SubsystemsIns` only as tags.
- Dispatch through the `Subsystem` and `NetworkDriver` interfaces: the memory subsystem is a class of its own, and a driver is its name plus the log of calls made to it.
- Kernel behaviour of cgroupfs (the limit actually taking effect, pids moving between cgroups): the model stops at the file contents.
- `FindCgroupMountpoint`: a matching mountinfo line with fewer than five fields would make Go's `fields[4]` panic; the model requires the kernel's line shape instead.
- Path cleaning in `path.Join` ("." and ".." and repeated '/'): `PathJoin` only puts one '/' between clean parts.
- Permissions, `os.RemoveAll` failures and the errors of `os.Remove`, `os.MkdirAll` and writing a record: the disk operations in `dump` and `remove` always succeed.
- Bytes are characters: a string stands for a Go byte slice.
- Network.Load: Go's `json.Unmarshal` on a valid JSON object with a mistyped field (say `"Driver":7`) keeps the fields it decoded, the address range included, and still returns an error, so `Init` registers a partly filled network; the model's all-or-nothing `Decode` leaves the target bare on every decoding error.
- encoding/json: replaced by a length-prefixed encoding with the same round trip and the same rejection of truncated input. Go's 16-byte IP form and the JSON text are not modelled.
- IPv4 only: an address is four bytes.
- The IP allocator's and the bridge driver's own code, and netlink: their answers are parameters.
- Switching into the container's network namespace (`enterContainerNetns`): its effects are not modelled, and its failures are only logged by the source.
- The four netlink steps of `configEndpointIpAddressAndRoute` (set the address, bring the peer and "lo" up, add the default route) are one logged call with one outcome. Their errors are passed through as `Passed`, including the "%v,%s" wrapping of the first.
- Running iptables: each run is logged; its failure is only logged by the source, so it has no outcome.
- `ListNetwork`: it only prints the registry.
- `net.ParseCIDR`: the parsed subnet is an input (`None` when it does not parse), and the driver receives the subnet as an `IPNet` rather than its `String()` text.
- `filepath.Walk`: the visited paths, in walk order, are an input; the error passed to the walk function is ignored by the source and not modelled. A stat error other than "does not exist" on the record directory is the `dirError` input.
- The `cinfo` parameter of `configPortMapping`, which the source never reads.
- Process start-up and the command-line entry points are not part of this model.
