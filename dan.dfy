/** Direct attachable network records (pkg/dan): the metadata a CNI plugin
    hands to the VM runtime that later consumes the host-side device. */
module Dan {
  import opened CniTypes

  /** `DirectAttachableNetworkType` and its three named kinds. */
  datatype NetworkType = Tap | Passthrough | Dpdk {
    /** The string each kind is written as in the persisted record. */
    function Name(): string {
      match this
      case Tap => "tap"
      case Passthrough => "passthrough"
      case Dpdk => "dpdk"
    }
  }

  /** The three kinds are written as three distinct strings, so a consumer can
      tell them apart from the persisted record alone. */
  lemma NamesDistinct(a: NetworkType, b: NetworkType)
    ensures a.Name() == b.Name() <==> a == b
    ensures Tap.Name() == "tap" && Passthrough.Name() == "passthrough" && Dpdk.Name() == "dpdk"
  {
  }

  /** `DirectAttachableNetwork`: the device-facing fields, then the parts of a
      CNI result a plugin may set. */
  datatype DirectAttachableNetwork = DirectAttachableNetwork(
    networkType: NetworkType,
    deviceName: string,
    containerInterfaceName: string,
    dpdkSocketPath: string,
    hwAddr: string,
    kernelPath: string,
    pciAddr: string,
    interfaces: seq<Interface>,
    ips: seq<IPConfig>,
    routes: seq<Route>,
    dns: DNS,
    annotations: map<string, string>)

  /** True when none of the device-specific addressing fields is set. */
  predicate NoDeviceAddressing(d: DirectAttachableNetwork) {
    d.dpdkSocketPath == "" && d.hwAddr == "" && d.kernelPath == "" && d.pciAddr == ""
  }

  /** `FromResult`: a record for `device`, attached in the sandbox as
      `containerInfName`, carrying the addressing parts of `r`. */
  function FromResult(networkType: NetworkType, device: string, containerInfName: string, r: CniResult)
    : (d: DirectAttachableNetwork)
    ensures d.networkType == networkType && d.deviceName == device
    ensures d.containerInterfaceName == containerInfName
    ensures d.interfaces == r.interfaces && d.ips == r.ips && d.routes == r.routes
    ensures d.dns == r.dns && d.annotations == r.annotations
    ensures NoDeviceAddressing(d)
  {
    DirectAttachableNetwork(networkType, device, containerInfName, "", "", "", "",
                            r.interfaces, r.ips, r.routes, r.dns, r.annotations)
  }

  /** The CNI result a record describes, under the given protocol version
      (the record does not keep the version). */
  function AttachedResult(d: DirectAttachableNetwork, cniVersion: string): CniResult {
    CniResult(cniVersion, d.interfaces, d.ips, d.routes, d.dns, d.annotations)
  }

  /** `FromResult` loses nothing of a result but its version, and every record
      with no device addressing is the record of its own result. */
  lemma FromResultRoundTrip(t: NetworkType, device: string, name: string, r: CniResult, d: DirectAttachableNetwork)
    ensures AttachedResult(FromResult(t, device, name, r), r.cniVersion) == r
    ensures NoDeviceAddressing(d) ==>
      FromResult(d.networkType, d.deviceName, d.containerInterfaceName, AttachedResult(d, "")) == d
  {
  }
}
