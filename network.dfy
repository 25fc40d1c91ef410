/**
 * network/network.go: the registry of drivers and networks, the persisted
 * network records, and the create / delete / connect flows.
 *
 * The IP allocator, the network drivers and the netlink calls are
 * collaborators whose code is not part of this model: each call to one is
 * appended to a log, and its answer is a parameter of the operation, so
 * every operation is proved for every answer a collaborator can give.
 */
module Network {
  import opened Wrappers
  import opened Text
  import opened NetworkRecords
  import opened RecordCodec

  /** Where network records are kept, one file per network named after it. */
  const DefaultNetworkPath := "/var/run/mydocker/network/network/"

  /** load reads a record with one Read into a buffer of this many bytes. */
  const ReadLimit := 2000

  /** A registered network driver; only its name is modelled. */
  datatype Driver = Driver(name: string)

  /** A collaborator's answer that carries a value. */
  datatype Reply<+T> = Done(value: T) | Failed(error: string)

  /** A collaborator's answer that carries only success or an error. */
  datatype Outcome = Pass | Fail(error: string)

  /** The calls made to collaborators, in the order they are made. */
  datatype Call =
    | IpamAllocate(range: Option<IPNet>)
    | IpamRelease(released: IPNet, ip: IPv4)
    | DriverCreate(driver: Driver, gatewayRange: IPNet, name: string)
    | DriverDelete(driver: Driver, network: Network)
    | DriverConnect(driver: Driver, network: Network, endpoint: Endpoint)
      /** netlink.LinkByName on the endpoint's peer device */
    | LookupPeer(endpoint: Endpoint)
      /** address, link-up and default-route setup inside the container's namespace */
    | ConfigureAddress(pid: string, address: IPNet, gateway: IPv4)
      /** one run of the iptables binary with these arguments */
    | Iptables(args: seq<string>)

  datatype NetError =
    | NoSuchNetwork(name: string)
      /** a collaborator's error, returned as the collaborator worded it */
    | Passed(message: string)
      /** "Error Remove Network gateway ip: ..." */
    | ReleaseFailed(message: string)
      /** "Error Remove Network DriverError: ..." */
    | DriverDeleteFailed(message: string)
      /** "fail config endpoint: ..." */
    | PeerNotFound(message: string)
    | OpenFailed(path: string)
      /** the first Read of an empty file reports end of file */
    | EndOfFile(path: string)
    | Malformed(path: string)

  /** Why a Go run-time panic (a nil dereference) ends an operation. */
  datatype PanicCause = NilIpRange | NilSubnet | NoDriver(name: string)

  datatype Status = Ok | Err(error: NetError) | Panic(cause: PanicCause)

  /** The package's state: its two maps, the record files on disk, and the collaborator log. */
  datatype State = State(
    drivers: map<string, Driver>,
    networks: map<string, Network>,
    files: map<string, string>,
    calls: seq<Call>)

  /** The network with only its name set, as Init starts each entry. */
  function Bare(name: string): Network
  {
    Network(name, None, "")
  }

  /** The file a record is kept in: the network's name under `dumpPath`. */
  function RecordPath(dumpPath: string, nw: Network): string
  {
    PathJoin(dumpPath, nw.name)
  }

  /** dump: the record file holds the encoded record, replacing what was there. */
  function Dumped(files: map<string, string>, dumpPath: string, nw: Network): (after: map<string, string>)
    ensures RecordPath(dumpPath, nw) in after && after[RecordPath(dumpPath, nw)] == Encode(nw)
    ensures forall p :: p != RecordPath(dumpPath, nw) ==> (p in after <==> p in files)
    ensures forall p :: p != RecordPath(dumpPath, nw) && p in files ==> after[p] == files[p]
  {
    files[RecordPath(dumpPath, nw) := Encode(nw)]
  }

  /** remove: the record file is gone; a file that is already missing is no error. */
  function Removed(files: map<string, string>, dumpPath: string, nw: Network): (after: map<string, string>)
    ensures RecordPath(dumpPath, nw) !in after
    ensures forall p :: p != RecordPath(dumpPath, nw) ==> (p in after <==> p in files)
    ensures forall p :: p in after ==> after[p] == files[p]
  {
    var p := RecordPath(dumpPath, nw);
    if p in files then files - {p} else files
  }

  /**
   * load: reads the file at `path` into the record `nw`. A missing file or an
   * empty one is an error; otherwise at most ReadLimit characters are
   * decoded, and a decoding error leaves `nw` as it was. The codec here
   * decodes all or nothing, which matches json.Unmarshal on text that is not
   * valid JSON, not on a valid object with one mistyped field.
   */
  function Load(files: map<string, string>, path: string, nw: Network): (r: (Network, Status))
    ensures r.1 != Ok ==> r.0 == nw
    ensures r.1 == Ok <==> path in files && files[path] != []
                           && Decode(files[path][..Min(|files[path]|, ReadLimit)]).Some?
  {
    if path !in files then (nw, Err(OpenFailed(path)))
    else
      var content := files[path];
      if content == [] then (nw, Err(EndOfFile(path)))
      else match Decode(content[..Min(|content|, ReadLimit)])
        case None => (nw, Err(Malformed(path)))
        case Some(decoded) => (decoded, Ok)
  }

  function Min(a: nat, b: nat): nat
  {
    if a <= b then a else b
  }

  /** The name the walk stores a path's record under: its base name; none for a path ending in '/'. */
  function EntryName(path: string): Option<string>
  {
    if HasSuffix(path, "/") then None else Some(Base(path))
  }

  function EntryNames(walk: seq<string>): (names: seq<Option<string>>)
    ensures |names| == |walk|
    ensures forall i :: 0 <= i < |walk| ==> names[i] == EntryName(walk[i])
  {
    seq(|walk|, i requires 0 <= i < |walk| => EntryName(walk[i]))
  }

  /** What loading each walked path yields, into a record holding only that path's base name. */
  function Loads(files: map<string, string>, walk: seq<string>): (loads: seq<Network>)
    ensures |loads| == |walk|
    ensures forall i :: 0 <= i < |walk| ==> loads[i] == Load(files, walk[i], Bare(Base(walk[i]))).0
  {
    seq(|walk|, i requires 0 <= i < |walk| => Load(files, walk[i], Bare(Base(walk[i]))).0)
  }

  function Store(networks: map<string, Network>, name: Option<string>, nw: Network): map<string, Network>
  {
    match name
    case None => networks
    case Some(n) => networks[n := nw]
  }

  /** The registry after storing, entry by entry in walk order, each loaded record under its name. */
  function Fold(networks: map<string, Network>, names: seq<Option<string>>, loads: seq<Network>)
    : map<string, Network>
    requires |names| == |loads|
    decreases |names|
  {
    if names == [] then networks
    else Fold(Store(networks, names[0], loads[0]), names[1..], loads[1..])
  }

  /** The registry after visiting every path of `walk` in order. */
  function LoadAll(networks: map<string, Network>, files: map<string, string>, walk: seq<string>)
    : map<string, Network>
  {
    Fold(networks, EntryNames(walk), Loads(files, walk))
  }

  /** The names a list of entries stores records under. */
  function Stored(names: seq<Option<string>>): set<string>
    decreases |names|
  {
    if names == [] then {}
    else (match names[0] case None => {} case Some(n) => {n}) + Stored(names[1..])
  }

  /**
   * Init: register `bridge` under its name; unless the record directory
   * cannot be examined (`dirError`), load every record the directory walk
   * yields into the registry.
   */
  function InitSpec(s: State, bridge: Driver, dirError: Option<string>, walk: seq<string>): (State, Status)
  {
    var s1 := s.(drivers := s.drivers[bridge.name := bridge]);
    if dirError.Some? then (s1, Err(Passed(dirError.value)))
    else (s1.(networks := LoadAll(s1.networks, s1.files, walk)), Ok)
  }

  /**
   * CreateNetwork: allocate the gateway from the parsed subnet (`None` when
   * the text did not parse), put it in place of the subnet's address, have
   * the driver create the network and dump the record it returns.
   */
  function CreateNetworkSpec(s: State, driver: string, subnet: Option<IPNet>, name: string,
                             granted: Reply<IPv4>, created: Reply<Network>): (State, Status)
  {
    var s1 := s.(calls := s.calls + [IpamAllocate(subnet)]);
    match granted
    case Failed(e) => (s1, Err(Passed(e)))
    case Done(ip) =>
      if subnet.None? then (s1, Panic(NilSubnet))
      else if driver !in s.drivers then (s1, Panic(NoDriver(driver)))
      else
        var s2 := s1.(calls := s1.calls + [DriverCreate(s.drivers[driver], subnet.value.(ip := ip), name)]);
        match created
        case Failed(e) => (s2, Err(Passed(e)))
        case Done(nw) => (s2.(files := Dumped(s2.files, DefaultNetworkPath, nw)), Ok)
  }

  /**
   * DeleteNetwork: release the gateway address, have the driver delete the
   * network and remove its record file. The registry entry stays.
   */
  function DeleteNetworkSpec(s: State, networkName: string, released: Outcome, deleted: Outcome): (State, Status)
  {
    if networkName !in s.networks then (s, Err(NoSuchNetwork(networkName)))
    else
      var nw := s.networks[networkName];
      match nw.ipRange
      case None => (s, Panic(NilIpRange))
      case Some(range) =>
        var s1 := s.(calls := s.calls + [IpamRelease(range, range.ip)]);
        if released.Fail? then (s1, Err(ReleaseFailed(released.error)))
        else if nw.driver !in s.drivers then (s1, Panic(NoDriver(nw.driver)))
        else
          var s2 := s1.(calls := s1.calls + [DriverDelete(s.drivers[nw.driver], nw)]);
          if deleted.Fail? then (s2, Err(DriverDeleteFailed(deleted.error)))
          else (s2.(files := Removed(s2.files, DefaultNetworkPath, nw)), Ok)
  }

  /**
   * configEndpointIpAddressAndRoute: find the peer device, then give it the
   * network's prefix with the endpoint's address and route through the
   * network's gateway.
   */
  function ConfigureSpec(s: State, ep: Endpoint, pid: string, peer: Outcome, configured: Outcome): (State, Status)
  {
    var s1 := s.(calls := s.calls + [LookupPeer(ep)]);
    if peer.Fail? then (s1, Err(PeerNotFound(peer.error)))
    else match ep.network.ipRange
      case None => (s1, Panic(NilIpRange))
      case Some(range) =>
        var s2 := s1.(calls := s1.calls + [ConfigureAddress(pid, InterfaceAddress(ep).value, range.ip)]);
        if configured.Fail? then (s2, Err(Passed(configured.error))) else (s2, Ok)
  }

  /** The DNAT rule configPortMapping installs for one "host:container" mapping, word by word. */
  function IptablesWords(hostPort: string, ip: IPv4, containerPort: string): seq<string>
  {
    ["-t", "nat", "-A", "PREROUTING", "-p", "tcp", "-m", "tcp", "--dport", hostPort,
     "-j", "DNAT", "--to-destination", IPText(ip) + ":" + containerPort]
  }

  /**
   * The text configPortMapping formats for the rule: its format string is
   * exactly these words with one space between each two.
   */
  function IptablesCommand(hostPort: string, ip: IPv4, containerPort: string): string
  {
    Join(IptablesWords(hostPort, ip, containerPort), ' ')
  }

  /** The iptables run for one mapping entry; an entry that is not two ':'-separated parts is skipped. */
  function PortRule(pm: string, ip: IPv4): seq<Call>
  {
    var parts := Split(pm, ':');
    if |parts| != 2 then []
    else [Iptables(Split(IptablesCommand(parts[0], ip, parts[1]), ' '))]
  }

  /** The iptables runs for a list of mappings, in list order. */
  function PortMappingCalls(pms: seq<string>, ip: IPv4): seq<Call>
    decreases |pms|
  {
    if pms == [] then [] else PortMappingCalls(pms[..|pms| - 1], ip) + PortRule(pms[|pms| - 1], ip)
  }

  /**
   * Connect: allocate the container's address from the network's range,
   * build the endpoint, have the driver connect it, configure it inside the
   * container and install the port mappings.
   */
  function ConnectSpec(s: State, networkName: string, cinfo: ContainerInfo, granted: Reply<IPv4>,
                       connected: Outcome, peer: Outcome, configured: Outcome): (State, Status)
  {
    if networkName !in s.networks then (s, Err(NoSuchNetwork(networkName)))
    else
      var nw := s.networks[networkName];
      var s1 := s.(calls := s.calls + [IpamAllocate(nw.ipRange)]);
      match granted
      case Failed(e) => (s1, Err(Passed(e)))
      case Done(ip) =>
        var ep := Endpoint(EndpointId(cinfo.id, networkName), ip, nw, cinfo.portMapping);
        if nw.driver !in s.drivers then (s1, Panic(NoDriver(nw.driver)))
        else
          var s2 := s1.(calls := s1.calls + [DriverConnect(s.drivers[nw.driver], nw, ep)]);
          if connected.Fail? then (s2, Err(Passed(connected.error)))
          else
            var (s3, st) := ConfigureSpec(s2, ep, cinfo.pid, peer, configured);
            if st != Ok then (s3, st)
            else (s3.(calls := s3.calls + PortMappingCalls(ep.portMapping, ep.ipAddress)), Ok)
  }

  // ---------------------------------------------------------------------
  // Persistence

  /** A record that fits the read buffer reads back from its file as itself, whatever it is read into. */
  lemma LoadAfterDump(files: map<string, string>, dumpPath: string, nw: Network, into: Network)
    requires |Encode(nw)| <= ReadLimit
    ensures Load(Dumped(files, dumpPath, nw), RecordPath(dumpPath, nw), into) == (nw, Ok)
  {
    var content := Encode(nw);
    assert content[..Min(|content|, ReadLimit)] == content;
    DecodeEncode(nw);
  }

  /** A record longer than the read buffer is cut short, so it never loads: the target keeps only what it had. */
  lemma LoadOversized(files: map<string, string>, dumpPath: string, nw: Network, into: Network)
    requires |Encode(nw)| > ReadLimit
    ensures Load(Dumped(files, dumpPath, nw), RecordPath(dumpPath, nw), into)
         == (into, Err(Malformed(RecordPath(dumpPath, nw))))
  {
    DecodeRejectsTruncated(nw, ReadLimit);
  }

  /** Removing a record twice is removing it once, and removing a dumped record restores the other files. */
  lemma RemovedIdempotent(files: map<string, string>, dumpPath: string, nw: Network)
    ensures Removed(Removed(files, dumpPath, nw), dumpPath, nw) == Removed(files, dumpPath, nw)
    ensures Removed(Dumped(files, dumpPath, nw), dumpPath, nw) == Removed(files, dumpPath, nw)
  {
    var once := Removed(files, dumpPath, nw);
    assert Removed(once, dumpPath, nw) == once;
    var back := Removed(Dumped(files, dumpPath, nw), dumpPath, nw);
    assert back.Keys == once.Keys;
  }

  // ---------------------------------------------------------------------
  // Init

  lemma {:induction false} StoredNames(names: seq<Option<string>>, name: string)
    ensures name in Stored(names) <==> exists i :: 0 <= i < |names| && names[i] == Some(name)
    decreases |names|
  {
    if names != [] {
      StoredNames(names[1..], name);
      if exists i :: 0 <= i < |names| && names[i] == Some(name) {
        var i :| 0 <= i < |names| && names[i] == Some(name);
        if i > 0 {
          assert names[1..][i - 1] == Some(name);
        }
      }
      if exists i :: 0 <= i < |names| - 1 && names[1..][i] == Some(name) {
        var i :| 0 <= i < |names| - 1 && names[1..][i] == Some(name);
        assert names[i + 1] == Some(name);
      }
    }
  }

  /** The registry holds the earlier entries and exactly the names stored under. */
  lemma {:induction false} FoldKeys(networks: map<string, Network>, names: seq<Option<string>>,
                                    loads: seq<Network>, name: string)
    requires |names| == |loads|
    ensures name in Fold(networks, names, loads) <==> name in networks || name in Stored(names)
    decreases |names|
  {
    if names != [] {
      FoldKeys(Store(networks, names[0], loads[0]), names[1..], loads[1..], name);
    }
  }

  /** An entry stored under no walked name stays as it was. */
  lemma {:induction false} FoldUntouched(networks: map<string, Network>, names: seq<Option<string>>,
                                         loads: seq<Network>, name: string)
    requires |names| == |loads| && name in networks && name !in Stored(names)
    ensures name in Fold(networks, names, loads) && Fold(networks, names, loads)[name] == networks[name]
    decreases |names|
  {
    if names != [] {
      FoldUntouched(Store(networks, names[0], loads[0]), names[1..], loads[1..], name);
    }
  }

  /** The record under a name is the one loaded by the last entry with that name. */
  lemma {:induction false} FoldEntry(networks: map<string, Network>, names: seq<Option<string>>,
                                     loads: seq<Network>, i: nat, name: string)
    requires |names| == |loads| && i < |names|
    requires names[i] == Some(name) && name !in Stored(names[i + 1..])
    ensures name in Fold(networks, names, loads) && Fold(networks, names, loads)[name] == loads[i]
    decreases |names|
  {
    var v := Store(networks, names[0], loads[0]);
    if i == 0 {
      FoldUntouched(v, names[1..], loads[1..], name);
    } else {
      assert names[1..][i - 1] == names[i];
      assert names[1..][i..] == names[i + 1..];
      assert loads[1..][i - 1] == loads[i];
      FoldEntry(v, names[1..], loads[1..], i - 1, name);
    }
  }

  /**
   * Init registers the bridge driver under its name before anything else,
   * so it stays registered even when the record directory cannot be
   * examined; that error is returned with the network registry untouched.
   * Init reads the record files but never changes them, and calls no
   * collaborator.
   */
  lemma InitEffects(s: State, bridge: Driver, dirError: Option<string>, walk: seq<string>)
    ensures var (t, st) := InitSpec(s, bridge, dirError, walk);
            && t.drivers == s.drivers[bridge.name := bridge]
            && bridge.name in t.drivers && t.drivers[bridge.name] == bridge
            && t.files == s.files && t.calls == s.calls
            && (dirError.Some? ==> t.networks == s.networks && st == Err(Passed(dirError.value)))
            && (dirError.None? ==> t.networks == LoadAll(s.networks, s.files, walk) && st == Ok)
  {
  }

  /** After Init the registry holds the earlier entries and exactly the entry names of the walked paths. */
  lemma InitKeys(s: State, bridge: Driver, walk: seq<string>, name: string)
    ensures name in InitSpec(s, bridge, None, walk).0.networks
        <==> name in s.networks || exists i :: 0 <= i < |walk| && EntryName(walk[i]) == Some(name)
  {
    var names := EntryNames(walk);
    FoldKeys(s.networks, names, Loads(s.files, walk), name);
    StoredNames(names, name);
  }

  /** After Init the record under a name is what the last walked path with that name loaded. */
  lemma InitEntry(s: State, bridge: Driver, walk: seq<string>, i: nat)
    requires i < |walk| && !HasSuffix(walk[i], "/")
    requires Base(walk[i]) !in Stored(EntryNames(walk)[i + 1..])
    ensures var networks := InitSpec(s, bridge, None, walk).0.networks;
            && Base(walk[i]) in networks
            && networks[Base(walk[i])] == Load(s.files, walk[i], Bare(Base(walk[i]))).0
  {
    FoldEntry(s.networks, EntryNames(walk), Loads(s.files, walk), i, Base(walk[i]));
  }

  /**
   * A record that fails to load still gets its registry entry, with no
   * address range; deleting that network then dereferences the nil range
   * before any collaborator is called.
   */
  lemma InitThenDeleteUnreadable(s: State, bridge: Driver, walk: seq<string>, i: nat,
                                 released: Outcome, deleted: Outcome)
    requires i < |walk| && !HasSuffix(walk[i], "/")
    requires Base(walk[i]) !in Stored(EntryNames(walk)[i + 1..])
    requires Load(s.files, walk[i], Bare(Base(walk[i]))).1 != Ok
    ensures var (t, st) := InitSpec(s, bridge, None, walk);
            && st == Ok
            && Base(walk[i]) in t.networks && t.networks[Base(walk[i])] == Bare(Base(walk[i]))
            && DeleteNetworkSpec(t, Base(walk[i]), released, deleted) == (t, Panic(NilIpRange))
  {
    InitEntry(s, bridge, walk, i);
  }

  /**
   * A created network appears in the registry only after the next Init
   * walks its record: Create leaves the registry alone, and Init then
   * loads the record back as the driver returned it.
   */
  lemma CreateThenInit(s: State, driver: string, subnet: Option<IPNet>, name: string,
                       granted: Reply<IPv4>, created: Reply<Network>,
                       bridge: Driver, walk: seq<string>, i: nat)
    requires CreateNetworkSpec(s, driver, subnet, name, granted, created).1 == Ok
    requires created.Done? && created.value.name != [] && '/' !in created.value.name
    requires |Encode(created.value)| <= ReadLimit
    requires i < |walk| && walk[i] == RecordPath(DefaultNetworkPath, created.value)
    requires created.value.name !in Stored(EntryNames(walk)[i + 1..])
    ensures var t := CreateNetworkSpec(s, driver, subnet, name, granted, created).0;
            && t.networks == s.networks
            && created.value.name in InitSpec(t, bridge, None, walk).0.networks
            && InitSpec(t, bridge, None, walk).0.networks[created.value.name] == created.value
  {
    var nw := created.value;
    var t := CreateNetworkSpec(s, driver, subnet, name, granted, created).0;
    var p := RecordPath(DefaultNetworkPath, nw);
    assert p == DefaultNetworkPath + nw.name;
    assert p[|p| - |nw.name|..] == nw.name;
    BaseOfSuffix(p, nw.name);
    assert !HasSuffix(p, "/");
    InitEntry(t, bridge, walk, i);
    LoadAfterDump(s.files, DefaultNetworkPath, nw, Bare(nw.name));
  }

  // ---------------------------------------------------------------------
  // CreateNetwork

  /**
   * Create always asks the allocator first; it never touches the registry;
   * it succeeds exactly when every collaborator does, the subnet parsed and
   * the driver is registered, and then the driver saw the subnet with the
   * gateway in place of its address and the returned record is on disk.
   * On any other path no file changes.
   */
  lemma CreateNetworkEffects(s: State, driver: string, subnet: Option<IPNet>, name: string,
                             granted: Reply<IPv4>, created: Reply<Network>)
    ensures var (t, st) := CreateNetworkSpec(s, driver, subnet, name, granted, created);
            && t.drivers == s.drivers && t.networks == s.networks
            && |t.calls| > |s.calls| && t.calls[..|s.calls|] == s.calls
            && t.calls[|s.calls|] == IpamAllocate(subnet)
            && (st == Ok <==> granted.Done? && subnet.Some? && driver in s.drivers && created.Done?)
            && (st == Ok ==>
                  && t.calls == s.calls + [IpamAllocate(subnet),
                                           DriverCreate(s.drivers[driver], IPNet(granted.value, subnet.value.mask), name)]
                  && t.files == Dumped(s.files, DefaultNetworkPath, created.value))
            && (st != Ok ==> t.files == s.files)
            && (granted.Failed? ==> t.calls == s.calls + [IpamAllocate(subnet)] && st == Err(Passed(granted.error)))
            && (granted.Done? && subnet.None? ==> st == Panic(NilSubnet))
  {
  }

  /**
   * Create stops at the first failing step: after a failed allocation, an
   * unparsed subnet or a missing driver no driver is called, and a failed
   * driver create dumps nothing.
   */
  lemma CreateNetworkStopsAtFailure(s: State, driver: string, subnet: Option<IPNet>, name: string,
                                    granted: Reply<IPv4>, created: Reply<Network>)
    ensures var (t, st) := CreateNetworkSpec(s, driver, subnet, name, granted, created);
            var allocate := s.(calls := s.calls + [IpamAllocate(subnet)]);
            && (granted.Failed? ==> t == allocate && st == Err(Passed(granted.error)))
            && (granted.Done? && subnet.None? ==> t == allocate && st == Panic(NilSubnet))
            && (granted.Done? && subnet.Some? && driver !in s.drivers ==>
                  t == allocate && st == Panic(NoDriver(driver)))
            && (granted.Done? && subnet.Some? && driver in s.drivers && created.Failed? ==>
                  t == allocate.(calls := allocate.calls + [DriverCreate(s.drivers[driver], IPNet(granted.value, subnet.value.mask), name)])
                  && st == Err(Passed(created.error)))
  {
  }

  // ---------------------------------------------------------------------
  // DeleteNetwork

  /**
   * Delete of an unknown name is an error with no effect. For a known
   * network it releases the gateway first; it succeeds exactly when both
   * collaborators do and the driver is registered, and only then is the
   * record file removed. The registry entry is never removed.
   */
  lemma DeleteNetworkEffects(s: State, networkName: string, released: Outcome, deleted: Outcome)
    ensures var (t, st) := DeleteNetworkSpec(s, networkName, released, deleted);
            && (networkName !in s.networks ==> t == s && st == Err(NoSuchNetwork(networkName)))
            && (networkName in s.networks && s.networks[networkName].ipRange.None? ==> t == s && st == Panic(NilIpRange))
            && t.drivers == s.drivers && t.networks == s.networks
            && (st == Ok <==> networkName in s.networks && s.networks[networkName].ipRange.Some?
                              && released.Pass? && s.networks[networkName].driver in s.drivers && deleted.Pass?)
            && (st == Ok ==>
                  var nw := s.networks[networkName];
                  && t.calls == s.calls + [IpamRelease(nw.ipRange.value, nw.ipRange.value.ip),
                                           DriverDelete(s.drivers[nw.driver], nw)]
                  && t.files == Removed(s.files, DefaultNetworkPath, nw))
            && (st != Ok ==> t.files == s.files)
            && (released.Fail? && networkName in s.networks && s.networks[networkName].ipRange.Some? ==>
                  st == Err(ReleaseFailed(released.error)))
  {
  }

  /**
   * Delete stops at the first failing step: a failed release calls no
   * driver, a missing driver panics right after the release, and a failed
   * driver delete leaves the record file in place.
   */
  lemma DeleteNetworkStopsAtFailure(s: State, networkName: string, released: Outcome, deleted: Outcome)
    requires networkName in s.networks && s.networks[networkName].ipRange.Some?
    ensures var (t, st) := DeleteNetworkSpec(s, networkName, released, deleted);
            var nw := s.networks[networkName];
            var release := IpamRelease(nw.ipRange.value, nw.ipRange.value.ip);
            && (released.Fail? ==>
                  t == s.(calls := s.calls + [release]) && st == Err(ReleaseFailed(released.error)))
            && (released.Pass? && nw.driver !in s.drivers ==>
                  t == s.(calls := s.calls + [release]) && st == Panic(NoDriver(nw.driver)))
            && (released.Pass? && nw.driver in s.drivers && deleted.Fail? ==>
                  t == s.(calls := s.calls + [release, DriverDelete(s.drivers[nw.driver], nw)])
                  && st == Err(DriverDeleteFailed(deleted.error)))
  {
  }

  /** Because Create does not register the network, deleting it by name right after is "no such network". */
  lemma CreateThenDelete(s: State, driver: string, subnet: Option<IPNet>, name: string,
                         granted: Reply<IPv4>, created: Reply<Network>,
                         released: Outcome, deleted: Outcome)
    requires created.Done? && created.value.name !in s.networks
    ensures var t := CreateNetworkSpec(s, driver, subnet, name, granted, created).0;
            DeleteNetworkSpec(t, created.value.name, released, deleted) == (t, Err(NoSuchNetwork(created.value.name)))
  {
    CreateNetworkEffects(s, driver, subnet, name, granted, created);
  }

  // ---------------------------------------------------------------------
  // configEndpointIpAddressAndRoute

  /**
   * Configuring an endpoint always looks its peer up first, and a failed
   * lookup stops there. It succeeds exactly when the lookup and the
   * configuration both pass and the network has a range; then the peer got
   * the endpoint's address under the network's mask, routed through the
   * range's own address. Nothing but the log changes.
   */
  lemma ConfigureEffects(s: State, ep: Endpoint, pid: string, peer: Outcome, configured: Outcome)
    ensures var (t, st) := ConfigureSpec(s, ep, pid, peer, configured);
            && t.drivers == s.drivers && t.networks == s.networks && t.files == s.files
            && |t.calls| > |s.calls| && t.calls[..|s.calls| + 1] == s.calls + [LookupPeer(ep)]
            && (peer.Fail? ==> t.calls == s.calls + [LookupPeer(ep)] && st == Err(PeerNotFound(peer.error)))
            && (st == Ok <==> peer.Pass? && ep.network.ipRange.Some? && configured.Pass?)
            && (peer.Pass? && ep.network.ipRange.Some? ==>
                  var range := ep.network.ipRange.value;
                  t.calls == s.calls + [LookupPeer(ep), ConfigureAddress(pid, IPNet(ep.ipAddress, range.mask), range.ip)])
  {
    assert (s.calls + [LookupPeer(ep)])[..|s.calls| + 1] == s.calls + [LookupPeer(ep)];
    if peer.Pass? && ep.network.ipRange.Some? {
      var c := ConfigureAddress(pid, InterfaceAddress(ep).value, ep.network.ipRange.value.ip);
      assert (s.calls + [LookupPeer(ep)] + [c])[..|s.calls| + 1] == s.calls + [LookupPeer(ep)];
    }
  }

  // ---------------------------------------------------------------------
  // configPortMapping

  /** The formatted command splits into the rule's words when neither port holds a space. */
  lemma IptablesArguments(hostPort: string, ip: IPv4, containerPort: string)
    requires ' ' !in hostPort && ' ' !in containerPort
    ensures Split(IptablesCommand(hostPort, ip, containerPort), ' ') == IptablesWords(hostPort, ip, containerPort)
  {
    SplitJoin(IptablesWords(hostPort, ip, containerPort), ' ');
  }

  /** An entry yields a rule exactly when it holds one ':'. */
  lemma PortRuleWellFormed(pm: string, ip: IPv4)
    ensures |PortRule(pm, ip)| <= 1
    ensures |PortRule(pm, ip)| == 1 <==> Count(pm, ':') == 1
    ensures forall c :: c in PortRule(pm, ip) ==> c.Iptables?
  {
  }

  /** "host:container" becomes one iptables run whose arguments are the DNAT rule's words. */
  lemma PortRuleOfMapping(hostPort: string, containerPort: string, ip: IPv4)
    requires ':' !in hostPort && ':' !in containerPort
    requires ' ' !in hostPort && ' ' !in containerPort
    ensures PortRule(hostPort + ":" + containerPort, ip) == [Iptables(IptablesWords(hostPort, ip, containerPort))]
  {
    assert Join([hostPort, containerPort], ':') == hostPort + ":" + containerPort;
    SplitJoin([hostPort, containerPort], ':');
    IptablesArguments(hostPort, ip, containerPort);
  }

  /** Mappings are installed in list order: the runs for a concatenation are the runs of each part. */
  lemma {:induction false} PortMappingCallsAppend(a: seq<string>, b: seq<string>, ip: IPv4)
    ensures PortMappingCalls(a + b, ip) == PortMappingCalls(a, ip) + PortMappingCalls(b, ip)
    decreases |b|
  {
    if b == [] {
      assert a + b == a;
    } else {
      var b' := b[..|b| - 1];
      assert (a + b)[..|a + b| - 1] == a + b';
      PortMappingCallsAppend(a, b', ip);
    }
  }

  /** Only iptables is run, at most once per entry, and exactly once per entry when every entry holds one ':'. */
  lemma {:induction false} PortMappingCallsShape(pms: seq<string>, ip: IPv4)
    ensures |PortMappingCalls(pms, ip)| <= |pms|
    ensures forall i :: 0 <= i < |PortMappingCalls(pms, ip)| ==> PortMappingCalls(pms, ip)[i].Iptables?
    ensures (forall i :: 0 <= i < |pms| ==> Count(pms[i], ':') == 1) ==> |PortMappingCalls(pms, ip)| == |pms|
    decreases |pms|
  {
    if pms != [] {
      var front := pms[..|pms| - 1];
      PortMappingCallsShape(front, ip);
      PortRuleWellFormed(pms[|pms| - 1], ip);
      if forall i :: 0 <= i < |pms| ==> Count(pms[i], ':') == 1 {
        assert forall i :: 0 <= i < |front| ==> front[i] == pms[i];
      }
    }
  }

  // ---------------------------------------------------------------------
  // Connect

  /**
   * Connect to an unknown network is an error with no effect. Otherwise it
   * changes neither the registry, the drivers nor the files, and only
   * appends to the collaborator log.
   */
  lemma ConnectEffects(s: State, networkName: string, cinfo: ContainerInfo, granted: Reply<IPv4>,
                       connected: Outcome, peer: Outcome, configured: Outcome)
    ensures var (t, st) := ConnectSpec(s, networkName, cinfo, granted, connected, peer, configured);
            && (networkName !in s.networks ==> t == s && st == Err(NoSuchNetwork(networkName)))
            && t.drivers == s.drivers && t.networks == s.networks && t.files == s.files
            && |s.calls| <= |t.calls| && t.calls[..|s.calls|] == s.calls
  {
  }

  /**
   * Connect to a known network asks the allocator first and never releases
   * an address afterwards, whatever fails later: an address allocated for a
   * connection that then fails is not given back.
   */
  lemma ConnectNeverReleases(s: State, networkName: string, cinfo: ContainerInfo, granted: Reply<IPv4>,
                             connected: Outcome, peer: Outcome, configured: Outcome)
    requires networkName in s.networks
    ensures var t := ConnectSpec(s, networkName, cinfo, granted, connected, peer, configured).0;
            && |t.calls| > |s.calls| && t.calls[|s.calls|] == IpamAllocate(s.networks[networkName].ipRange)
            && forall i :: |s.calls| <= i < |t.calls| ==> !t.calls[i].IpamRelease?
  {
    var (t, st) := ConnectSpec(s, networkName, cinfo, granted, connected, peer, configured);
    ConnectStopsAtFailure(s, networkName, cinfo, granted, connected, peer, configured);
    if st == Ok {
      ConnectSucceeds(s, networkName, cinfo, granted, connected, peer, configured);
      PortMappingCallsShape(cinfo.portMapping, granted.value);
    }
  }

  /**
   * Connect stops at the first failing step, and on every failure no
   * iptables rule is installed: each failure leaves exactly the calls made
   * up to and including the one that failed.
   */
  lemma ConnectStopsAtFailure(s: State, networkName: string, cinfo: ContainerInfo, granted: Reply<IPv4>,
                              connected: Outcome, peer: Outcome, configured: Outcome)
    requires networkName in s.networks
    ensures var (t, st) := ConnectSpec(s, networkName, cinfo, granted, connected, peer, configured);
            var nw := s.networks[networkName];
            var allocate := IpamAllocate(nw.ipRange);
            && (st != Ok ==> forall i :: |s.calls| <= i < |t.calls| ==> !t.calls[i].Iptables?)
            && (granted.Failed? ==> t.calls == s.calls + [allocate] && st == Err(Passed(granted.error)))
            && (granted.Done? ==>
                  var ep := Endpoint(EndpointId(cinfo.id, networkName), granted.value, nw, cinfo.portMapping);
                  && (nw.driver !in s.drivers ==> t.calls == s.calls + [allocate] && st == Panic(NoDriver(nw.driver)))
                  && (nw.driver in s.drivers ==>
                        var connect := DriverConnect(s.drivers[nw.driver], nw, ep);
                        && (connected.Fail? ==>
                              t.calls == s.calls + [allocate, connect] && st == Err(Passed(connected.error)))
                        && (connected.Pass? && peer.Fail? ==>
                              t.calls == s.calls + [allocate, connect, LookupPeer(ep)]
                              && st == Err(PeerNotFound(peer.error)))
                        && (connected.Pass? && peer.Pass? && nw.ipRange.None? ==>
                              t.calls == s.calls + [allocate, connect, LookupPeer(ep)] && st == Panic(NilIpRange))
                        && (connected.Pass? && peer.Pass? && nw.ipRange.Some? && configured.Fail? ==>
                              t.calls == s.calls + [allocate, connect, LookupPeer(ep),
                                                    ConfigureAddress(cinfo.pid, IPNet(granted.value, nw.ipRange.value.mask),
                                                                     nw.ipRange.value.ip)]
                              && st == Err(Passed(configured.error)))))
  {
  }

  /**
   * A successful Connect made exactly these calls: allocate from the
   * network's range, connect the endpoint (ID "<container>-<network>", the
   * granted address, the container's port mappings) through the
   * network's driver, find its peer, give it the granted address under
   * the network's mask with the range's address as gateway, then one
   * iptables run per well-formed mapping.
   */
  lemma ConnectSucceeds(s: State, networkName: string, cinfo: ContainerInfo, granted: Reply<IPv4>,
                        connected: Outcome, peer: Outcome, configured: Outcome)
    ensures var (t, st) := ConnectSpec(s, networkName, cinfo, granted, connected, peer, configured);
            && (st == Ok <==> networkName in s.networks && granted.Done?
                              && s.networks[networkName].driver in s.drivers && connected.Pass?
                              && peer.Pass? && s.networks[networkName].ipRange.Some? && configured.Pass?)
            && (st == Ok ==>
                  var nw := s.networks[networkName];
                  var range := nw.ipRange.value;
                  var ip := granted.value;
                  var ep := Endpoint(EndpointId(cinfo.id, networkName), ip, nw, cinfo.portMapping);
                  t.calls == s.calls + [IpamAllocate(nw.ipRange), DriverConnect(s.drivers[nw.driver], nw, ep),
                                        LookupPeer(ep), ConfigureAddress(cinfo.pid, IPNet(ip, range.mask), range.ip)]
                                     + PortMappingCalls(cinfo.portMapping, ip))
  {
  }

  // ---------------------------------------------------------------------
  // The package state, updated in place

  class NetworkManager {
    var drivers: map<string, Driver>
    var networks: map<string, Network>
    var files: map<string, string>
    var calls: seq<Call>

    function Snapshot(): State
      reads this
    {
      State(drivers, networks, files, calls)
    }

    /** No drivers or networks yet; the record files already on disk are `persisted`. */
    constructor (persisted: map<string, string>)
      ensures Snapshot() == State(map[], map[], persisted, [])
    {
      drivers := map[];
      networks := map[];
      files := persisted;
      calls := [];
    }

    /** dump; the disk's own failures are not modelled, so it always succeeds. */
    method Dump(nw: Network, dumpPath: string) returns (st: Status)
      modifies this
      ensures st == Ok
      ensures Snapshot() == old(Snapshot()).(files := Dumped(old(files), dumpPath, nw))
    {
      files := files[RecordPath(dumpPath, nw) := Encode(nw)];
      return Ok;
    }

    /** remove: stat the record file and delete it when it exists. */
    method Remove(nw: Network, dumpPath: string) returns (st: Status)
      modifies this
      ensures st == Ok
      ensures Snapshot() == old(Snapshot()).(files := Removed(old(files), dumpPath, nw))
    {
      var p := RecordPath(dumpPath, nw);
      if p in files {
        files := files - {p};
      }
      return Ok;
    }

    method Init(bridge: Driver, dirError: Option<string>, walk: seq<string>) returns (st: Status)
      modifies this
      ensures (Snapshot(), st) == InitSpec(old(Snapshot()), bridge, dirError, walk)
    {
      drivers := drivers[bridge.name := bridge];
      if dirError.Some? {
        return Err(Passed(dirError.value));
      }
      ghost var names := EntryNames(walk);
      ghost var loads := Loads(files, walk);
      var i := 0;
      while i < |walk|
        invariant 0 <= i <= |walk|
        invariant drivers == old(drivers)[bridge.name := bridge]
        invariant files == old(files) && calls == old(calls)
        invariant Fold(networks, names[i..], loads[i..]) == Fold(old(networks), names, loads)
      {
        var path := walk[i];
        if !HasSuffix(path, "/") {
          var name := Base(path);
          var (nw, _) := Load(files, path, Bare(name));
          networks := networks[name := nw];
        }
        assert names[i..][1..] == names[i + 1..];
        assert loads[i..][1..] == loads[i + 1..];
        i := i + 1;
      }
      return Ok;
    }

    method CreateNetwork(driver: string, subnet: Option<IPNet>, name: string,
                         granted: Reply<IPv4>, created: Reply<Network>) returns (st: Status)
      modifies this
      ensures (Snapshot(), st) == CreateNetworkSpec(old(Snapshot()), driver, subnet, name, granted, created)
    {
      calls := calls + [IpamAllocate(subnet)];
      if granted.Failed? {
        return Err(Passed(granted.error));
      }
      if subnet.None? {
        return Panic(NilSubnet);
      }
      var gateway := subnet.value.(ip := granted.value);
      if driver !in drivers {
        return Panic(NoDriver(driver));
      }
      calls := calls + [DriverCreate(drivers[driver], gateway, name)];
      if created.Failed? {
        return Err(Passed(created.error));
      }
      st := Dump(created.value, DefaultNetworkPath);
    }

    method DeleteNetwork(networkName: string, released: Outcome, deleted: Outcome) returns (st: Status)
      modifies this
      ensures (Snapshot(), st) == DeleteNetworkSpec(old(Snapshot()), networkName, released, deleted)
    {
      if networkName !in networks {
        return Err(NoSuchNetwork(networkName));
      }
      var nw := networks[networkName];
      if nw.ipRange.None? {
        return Panic(NilIpRange);
      }
      calls := calls + [IpamRelease(nw.ipRange.value, nw.ipRange.value.ip)];
      if released.Fail? {
        return Err(ReleaseFailed(released.error));
      }
      if nw.driver !in drivers {
        return Panic(NoDriver(nw.driver));
      }
      calls := calls + [DriverDelete(drivers[nw.driver], nw)];
      if deleted.Fail? {
        return Err(DriverDeleteFailed(deleted.error));
      }
      st := Remove(nw, DefaultNetworkPath);
    }

    method ConfigureEndpoint(ep: Endpoint, pid: string, peer: Outcome, configured: Outcome) returns (st: Status)
      modifies this
      ensures (Snapshot(), st) == ConfigureSpec(old(Snapshot()), ep, pid, peer, configured)
    {
      calls := calls + [LookupPeer(ep)];
      if peer.Fail? {
        return Err(PeerNotFound(peer.error));
      }
      if ep.network.ipRange.None? {
        return Panic(NilIpRange);
      }
      var address := ep.network.ipRange.value.(ip := ep.ipAddress);
      calls := calls + [ConfigureAddress(pid, address, ep.network.ipRange.value.ip)];
      if configured.Fail? {
        return Err(Passed(configured.error));
      }
      return Ok;
    }

    /** configPortMapping: a malformed entry, or a failing iptables run, is logged and skipped. */
    method ConfigPortMapping(ep: Endpoint) returns (st: Status)
      modifies this
      ensures st == Ok
      ensures Snapshot() == old(Snapshot()).(calls := old(calls) + PortMappingCalls(ep.portMapping, ep.ipAddress))
    {
      var i := 0;
      while i < |ep.portMapping|
        invariant 0 <= i <= |ep.portMapping|
        invariant Snapshot() == old(Snapshot()).(calls := old(calls) + PortMappingCalls(ep.portMapping[..i], ep.ipAddress))
      {
        var parts := Split(ep.portMapping[i], ':');
        if |parts| == 2 {
          calls := calls + [Iptables(Split(IptablesCommand(parts[0], ep.ipAddress, parts[1]), ' '))];
        }
        assert ep.portMapping[..i + 1][..i] == ep.portMapping[..i];
        i := i + 1;
      }
      assert ep.portMapping[..|ep.portMapping|] == ep.portMapping;
      return Ok;
    }

    method Connect(networkName: string, cinfo: ContainerInfo, granted: Reply<IPv4>,
                   connected: Outcome, peer: Outcome, configured: Outcome) returns (st: Status)
      modifies this
      ensures (Snapshot(), st) == ConnectSpec(old(Snapshot()), networkName, cinfo, granted, connected, peer, configured)
    {
      if networkName !in networks {
        return Err(NoSuchNetwork(networkName));
      }
      var nw := networks[networkName];
      calls := calls + [IpamAllocate(nw.ipRange)];
      if granted.Failed? {
        return Err(Passed(granted.error));
      }
      var ep := Endpoint(EndpointId(cinfo.id, networkName), granted.value, nw, cinfo.portMapping);
      if nw.driver !in drivers {
        return Panic(NoDriver(nw.driver));
      }
      calls := calls + [DriverConnect(drivers[nw.driver], nw, ep)];
      if connected.Fail? {
        return Err(Passed(connected.error));
      }
      st := ConfigureEndpoint(ep, cinfo.pid, peer, configured);
      if st != Ok {
        return;
      }
      st := ConfigPortMapping(ep);
    }

    /** Disconnect does nothing and reports success. */
    method Disconnect(networkName: string, cinfo: ContainerInfo) returns (st: Status)
      ensures st == Ok
    {
      return Ok;
    }
  }
}
