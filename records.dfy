/** The records of network/network.go and the part of the container record it reads. */
module NetworkRecords {
  import opened Wrappers
  import opened Text

  newtype byte = b: int | 0 <= b < 256

  /** An IPv4 address, as the 4-byte net.IP the allocator hands out. */
  type IPv4 = a: seq<byte> | |a| == 4 witness [0, 0, 0, 0]

  /** net.IPNet: an address with its mask. */
  datatype IPNet = IPNet(ip: IPv4, mask: IPv4)

  /**
   * Network: its name, its address range (`None` is Go's nil, left
   * so when the record could not be loaded) and the name of its driver.
   */
  datatype Network = Network(name: string, ipRange: Option<IPNet>, driver: string)

  /**
   * Endpoint as Connect builds it. The veth device and MAC address are
   * filled in by the driver, whose code is not part of this model.
   */
  datatype Endpoint = Endpoint(id: string, ipAddress: IPv4, network: Network, portMapping: seq<string>)

  /** The fields of container.ContainerInfo that the network code reads. */
  datatype ContainerInfo = ContainerInfo(pid: string, id: string, portMapping: seq<string>)

  /** net.IP.String for a 4-byte address: dotted decimal. */
  function IPText(ip: IPv4): (text: string)
    ensures ' ' !in text && ':' !in text
  {
    NatDigits(ip[0] as nat) + "." + NatDigits(ip[1] as nat) + "."
      + NatDigits(ip[2] as nat) + "." + NatDigits(ip[3] as nat)
  }

  /** The endpoint ID Connect formats: the container ID, '-', the network name. */
  function EndpointId(containerId: string, networkName: string): string
  {
    containerId + "-" + networkName
  }

  /**
   * The address configEndpointIpAddressAndRoute gives the container's side
   * of the veth pair: the network's range with its IP replaced by the
   * endpoint's, so the prefix (mask) is the network's.
   */
  function InterfaceAddress(ep: Endpoint): (address: Option<IPNet>)
    ensures address.Some? <==> ep.network.ipRange.Some?
    ensures address.Some? ==> address.value.ip == ep.ipAddress
                              && address.value.mask == ep.network.ipRange.value.mask
  {
    match ep.network.ipRange
    case None => None
    case Some(range) => Some(range.(ip := ep.ipAddress))
  }
}
